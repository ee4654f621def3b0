/**
 Properties of the list query that getAllMonsters builds, stated over whole
 criteria: which clauses appear, in what order, with which parameters, and
 what the SQL text can depend on.
 */
module ListFacts {
  import opened Wrappers
  import opened Text
  import opened Monster

  /** No filter field is present and non-empty, and rules is not "TA". */
  predicate Unfiltered(c: Criteria)
  {
    !Filled(c.game) && !Filled(c.monster) && !Filled(c.username) && !Filled(c.weapon) &&
    !(c.rules.Some? && c.rules.value == RulesSentinel) && !Filled(c.device)
  }

  /** Strictly increasing by rank: the fixed filter order, with no filter twice. */
  predicate Ascending(fs: seq<Filter>)
  {
    forall i, j | 0 <= i < j < |fs| :: Rank(fs[i]) < Rank(fs[j])
  }

  /** Keep selects exactly the active filters and keeps their relative order. */
  lemma {:induction false} KeepSelects(fs: seq<Filter>, c: Criteria)
    ensures forall f :: f in Keep(fs, c) <==> f in fs && Active(c, f)
    ensures Ascending(fs) ==> Ascending(Keep(fs, c))
  {
    if fs != [] {
      var init, last := fs[..|fs| - 1], fs[|fs| - 1];
      KeepSelects(init, c);
      assert fs == init + [last];
      var kept := Keep(init, c);
      var k := Keep(fs, c);
      assert k == kept + Emitted(c, last);
      if Ascending(fs) {
        assert Ascending(init);
        forall i, j | 0 <= i < j < |k|
          ensures Rank(k[i]) < Rank(k[j])
        {
          if j >= |kept| {
            assert k[j] == last && k[i] == kept[i];
            assert kept[i] in init;
            var p :| 0 <= p < |init| && init[p] == kept[i];
            assert fs[p] == kept[i];
          }
        }
      }
    }
  }

  lemma FilterOrderAscending()
    ensures Ascending(FilterOrder)
    ensures forall f :: f in FilterOrder
  {
    forall f
      ensures f in FilterOrder
    {
      assert FilterOrder[Rank(f)] == f;
    }
  }

  /**
   The list query applies a filter exactly when its guard holds, and the
   applied filters come in the order game, monster, username, weapon, rules,
   device, none twice.
   */
  lemma ActiveFiltersOrdered(c: Criteria)
    ensures forall f :: f in ActiveFilters(c) <==> Active(c, f)
    ensures Ascending(ActiveFilters(c))
  {
    FilterOrderAscending();
    KeepSelects(FilterOrder, c);
  }

  /** No filter is applied exactly when no field is filled and rules is not "TA". */
  lemma NoFilterApplied(c: Criteria)
    ensures ActiveFilters(c) == [] <==> Unfiltered(c)
  {
    ActiveFiltersOrdered(c);
    var fs := ActiveFilters(c);
    if fs != [] {
      assert Active(c, fs[0]);
    }
    if Filled(c.game) {
      assert Active(c, GameFilter);
    }
    if Filled(c.monster) {
      assert Active(c, MonsterFilter);
    }
    if Filled(c.username) {
      assert Active(c, UsernameFilter);
    }
    if Filled(c.weapon) {
      assert Active(c, WeaponFilter);
    }
    if c.rules.Some? && c.rules.value == RulesSentinel {
      assert Active(c, RulesFilter);
    }
    if Filled(c.device) {
      assert Active(c, DeviceFilter);
    }
  }

  lemma WCountParts(a: string, w: string, o: string, l: string)
    requires 'W' !in a && 'W' !in o && 'W' !in l
    ensures Count(a + w + o + l, 'W') == Count(w, 'W')
  {
    CountAppend4(a, w, o, l, 'W');
  }

  lemma EmptyMiddle(a: string, o: string, l: string)
    ensures a + "" + o + l == a + o + l
  {
  }

  /**
   WHERE emission: with no filter there is no WHERE anywhere in the SQL; with
   filters the WHERE clause, the predicates joined by AND, follows the base
   select directly; either way the word WHERE occurs at most once.
   */
  lemma WhereEmission(c: Criteria)
    ensures Unfiltered(c) ==>
      ListQuery(c).sql == ListBase + OrderClause(c.sort) + LimitClause(c.limit)
    ensures Unfiltered(c) ==> forall i :: !OccursAt("WHERE", ListQuery(c).sql, i)
    ensures !Unfiltered(c) ==>
      OccursAt(" WHERE " + Join(Predicates(ActiveFilters(c)), " AND "), ListQuery(c).sql, |ListBase|)
    ensures forall i, j | OccursAt("WHERE", ListQuery(c).sql, i) && OccursAt("WHERE", ListQuery(c).sql, j) :: i == j
  {
    var sql := ListQuery(c).sql;
    NoFilterApplied(c);
    ListBasePlain();
    OrderClausePlain(c.sort);
    LimitClausePlain(c.limit);
    WhereClauseCounts(c);
    WCountParts(ListBase, WhereClause(c), OrderClause(c.sort), LimitClause(c.limit));
    assert "WHERE"[0] == 'W';
    UniqueOccurrence("WHERE", sql);
    if Unfiltered(c) {
      EmptyMiddle(ListBase, OrderClause(c.sort), LimitClause(c.limit));
      NoOccurrence("WHERE", sql);
    } else {
      OccursAfter(ListBase, WhereClause(c), OrderClause(c.sort), LimitClause(c.limit));
    }
  }

  /**
   The parameter list, filter by filter: game, weapon and device bind their
   value unchanged, monster and username bind it wrapped in %, rules binds
   nothing, and an absent or empty field binds nothing.
   */
  lemma ListParams(c: Criteria)
    ensures ListQuery(c).params ==
      (if Filled(c.game) then [c.game.value] else []) +
      (if Filled(c.monster) then ["%" + c.monster.value + "%"] else []) +
      (if Filled(c.username) then ["%" + c.username.value + "%"] else []) +
      (if Filled(c.weapon) then [c.weapon.value] else []) +
      (if Filled(c.device) then [c.device.value] else [])
  {
    ListListsUnrolled(c);
    var before := BindingIf(c, GameFilter) + BindingIf(c, MonsterFilter) +
      BindingIf(c, UsernameFilter) + BindingIf(c, WeaponFilter);
    assert BindingIf(c, RulesFilter) == [];
    assert before + [] == before;
  }

  /** ORDER BY: none for an absent or empty sort, ASC only for "ASC", DESC otherwise. */
  lemma OrderPolicy(sort: Option<string>)
    ensures !Filled(sort) ==> OrderClause(sort) == ""
    ensures sort == Some("ASC") ==> OrderClause(sort) == " ORDER BY r.time ASC"
    ensures Filled(sort) && sort.value != "ASC" ==> OrderClause(sort) == " ORDER BY r.time DESC"
  {
    if Filled(sort) {
      if sort.value == "ASC" {
        assert " ORDER BY " + ("r.time " + "ASC") == " ORDER BY r.time ASC";
      } else {
        assert " ORDER BY " + ("r.time " + "DESC") == " ORDER BY r.time DESC";
      }
    }
  }

  /** LIMIT: present exactly for 1 to 5, rendered as that single digit. */
  lemma LimitPolicy(limit: Option<int>)
    ensures LimitClause(limit) != "" <==> limit.Some? && 0 < limit.value < 6
    ensures limit.Some? && 0 < limit.value < 6 ==>
      LimitClause(limit) == " LIMIT " + [Digit(limit.value)]
  {
  }

  /** Keep looks at the criteria only through the filters' guards. */
  lemma {:induction false} KeepSameGuards(fs: seq<Filter>, c1: Criteria, c2: Criteria)
    requires forall f :: Active(c1, f) == Active(c2, f)
    ensures Keep(fs, c1) == Keep(fs, c2)
  {
    if fs != [] {
      KeepSameGuards(fs[..|fs| - 1], c1, c2);
    }
  }

  /** Bindings looks at the criteria only through the filter fields. */
  lemma {:induction false} BindingsSameFields(fs: seq<Filter>, c1: Criteria, c2: Criteria)
    requires c1.game == c2.game && c1.monster == c2.monster && c1.username == c2.username
    requires c1.weapon == c2.weapon && c1.rules == c2.rules && c1.device == c2.device
    requires forall i | 0 <= i < |fs| :: Active(c1, fs[i])
    ensures forall i | 0 <= i < |fs| :: Active(c2, fs[i])
    ensures Bindings(c1, fs) == Bindings(c2, fs)
  {
    if fs != [] {
      BindingsSameFields(fs[..|fs| - 1], c1, c2);
    }
  }

  /** Criteria that agree on the filter fields yield the same filters, WHERE clause and parameters. */
  lemma SameFilterFields(c1: Criteria, c2: Criteria)
    requires c1.game == c2.game && c1.monster == c2.monster && c1.username == c2.username
    requires c1.weapon == c2.weapon && c1.rules == c2.rules && c1.device == c2.device
    ensures ActiveFilters(c1) == ActiveFilters(c2)
    ensures WhereClause(c1) == WhereClause(c2)
    ensures ListQuery(c1).params == ListQuery(c2).params
  {
    KeepSameGuards(FilterOrder, c1, c2);
    BindingsSameFields(ActiveFilters(c1), c1, c2);
  }

  lemma DropEmpty(a: string, o: string, l: string)
    requires o == "" && l == ""
    ensures a + o + l == a
  {
  }

  /**
   The clauses come in the order WHERE, ORDER BY, LIMIT: the full query is the
   filtered query without sort and limit, then the ORDER BY clause, then the
   LIMIT clause; sort and limit add no parameters.
   */
  lemma ClauseOrder(c: Criteria)
    ensures ListQuery(c.(sort := None, limit := None)).sql == ListBase + WhereClause(c)
    ensures ListQuery(c).sql ==
      ListQuery(c.(sort := None, limit := None)).sql + OrderClause(c.sort) + LimitClause(c.limit)
    ensures ListQuery(c).params == ListQuery(c.(sort := None, limit := None)).params
  {
    var bare := c.(sort := None, limit := None);
    SameFilterFields(c, bare);
    DropEmpty(ListBase + WhereClause(c), OrderClause(bare.sort), LimitClause(bare.limit));
  }

  /**
   What the SQL text can see of the criteria: which filters are on, whether
   a sort is given and whether it is "ASC", and the honoured limit.
   */
  predicate SameShape(c1: Criteria, c2: Criteria)
  {
    (forall f :: Active(c1, f) == Active(c2, f)) &&
    Filled(c1.sort) == Filled(c2.sort) &&
    (Filled(c1.sort) ==> (c1.sort.value == "ASC") == (c2.sort.value == "ASC")) &&
    EffectiveLimit(c1.limit) == EffectiveLimit(c2.limit)
  }

  /**
   User-supplied strings reach only the parameter list: criteria of the same
   shape yield the same SQL text, whatever the filter values are.
   */
  lemma SqlDependsOnlyOnShape(c1: Criteria, c2: Criteria)
    requires SameShape(c1, c2)
    ensures ListQuery(c1).sql == ListQuery(c2).sql
  {
    KeepSameGuards(FilterOrder, c1, c2);
  }
}
