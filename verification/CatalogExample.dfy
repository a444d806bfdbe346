/**
 * A worked query over three fire-type entries: `type=fire&q=char&sort=name-asc&page=1`
 * keeps all three and orders them charizard, charmander, charmeleon on one page.
 */
module CatalogExample {
  import opened Wrappers
  import opened Text
  import opened Sequences
  import opened PokeApi
  import opened CatalogQuery

  /** The three entries, in master-list (id) order. */
  function FireStarters(): seq<IndexEntry>
  {
    [IndexEntry(4, "charmander", ""), IndexEntry(5, "charmeleon", ""), IndexEntry(6, "charizard", "")]
  }

  lemma StartersAllSelected()
    ensures QueryFilter(TypeFilter(FireStarters(), Some(Membership(true, {"charmander", "charmeleon", "charizard"}))), "char") == FireStarters()
  {
    var list := FireStarters();
    var fire := Membership(true, {"charmander", "charmeleon", "charizard"});
    assert Filter(list, InType(fire)) == list by {
      assert Filter(list[2..], InType(fire)) == list[2..];
      assert Filter(list[1..], InType(fire)) == list[1..];
    }
    assert "char" <= "charmander" && "char" <= "charmeleon" && "char" <= "charizard";
    assert Filter(list, MatchesText("char")) == list by {
      assert Filter(list[2..], MatchesText("char")) == list[2..];
      assert Filter(list[1..], MatchesText("char")) == list[1..];
    }
  }

  lemma StarterNamesOrder()
    ensures LexLe("charmander", "charmeleon")
    ensures !LexLe("charmeleon", "charizard")
    ensures !LexLe("charmander", "charizard")
  {
    assert LexLe("charmander", "charmeleon") by {
      assert "charmander"[4..] == "mander" && "charmeleon"[4..] == "meleon";
      assert LexLe("ander", "eleon");
    }
    assert !LexLe("charmeleon", "charizard") by {
      assert "charmeleon"[4..] == "meleon" && "charizard"[4..] == "izard";
      assert !LexLe("meleon", "izard");
    }
    assert !LexLe("charmander", "charizard") by {
      assert "charmander"[4..] == "mander" && "charizard"[4..] == "izard";
      assert !LexLe("mander", "izard");
    }
  }

  lemma InsertAfterOne<T>(x: T, a: T, le: (T, T) -> bool)
    requires !le(x, a)
    ensures Insert(x, [a], le) == [a, x]
  {
    assert [a][1..] == [];
  }

  lemma InsertBetweenTwo<T>(x: T, a: T, b: T, le: (T, T) -> bool)
    requires !le(x, a) && le(x, b)
    ensures Insert(x, [a, b], le) == [a, x, b]
  {
    assert [a, b][1..] == [b];
    assert Insert(x, [b], le) == [x, b];
  }

  lemma InsertCharmeleon()
    ensures Insert(FireStarters()[1], [FireStarters()[2]], Precedes(NameAsc)) == [FireStarters()[2], FireStarters()[1]]
  {
    StarterNamesOrder();
    var le := Precedes(NameAsc);
    var meleon, izard := FireStarters()[1], FireStarters()[2];
    assert !le(meleon, izard);
    InsertAfterOne(meleon, izard, le);
  }

  lemma InsertCharmander()
    ensures Insert(FireStarters()[0], [FireStarters()[2], FireStarters()[1]], Precedes(NameAsc)) == [FireStarters()[2], FireStarters()[0], FireStarters()[1]]
  {
    StarterNamesOrder();
    var le := Precedes(NameAsc);
    var mander, meleon, izard := FireStarters()[0], FireStarters()[1], FireStarters()[2];
    assert !le(mander, izard) && le(mander, meleon);
    InsertBetweenTwo(mander, izard, meleon, le);
  }

  lemma StarterInserts()
    ensures var le := Precedes(NameAsc);
      && Insert(FireStarters()[1], [FireStarters()[2]], le) == [FireStarters()[2], FireStarters()[1]]
      && Insert(FireStarters()[0], [FireStarters()[2], FireStarters()[1]], le) == [FireStarters()[2], FireStarters()[0], FireStarters()[1]]
  {
    InsertCharmeleon();
    InsertCharmander();
  }

  lemma StartersSortedByName()
    ensures SortBy(FireStarters(), Precedes(NameAsc)) == [FireStarters()[2], FireStarters()[0], FireStarters()[1]]
  {
    StarterInserts();
    var le := Precedes(NameAsc);
    var list := FireStarters();
    assert list[1..][1..] == [list[2]] && list[1..] == [list[1], list[2]];
    assert SortBy([list[2]], le) == [list[2]] by {
      assert [list[2]][1..] == [];
    }
  }

  lemma StartersPlan()
    ensures var plan := PlanPage(FireStarters(), NameAsc, 1);
      plan.totalPages == 1 && plan.page == 1 && plan.window == [FireStarters()[2], FireStarters()[0], FireStarters()[1]]
  {
    StartersSortedByName();
  }

  /** The whole example: all three entries are selected and shown, by name, on page 1 of 1. */
  lemma FireNameAscExample()
    ensures var selected := QueryFilter(TypeFilter(FireStarters(), Some(Membership(true, {"charmander", "charmeleon", "charizard"}))), "char");
      var plan := PlanPage(selected, NameAsc, 1);
      && |selected| == 3
      && plan.totalPages == 1 && plan.page == 1
      && plan.window == [IndexEntry(6, "charizard", ""), IndexEntry(4, "charmander", ""), IndexEntry(5, "charmeleon", "")]
  {
    StartersAllSelected();
    StartersPlan();
  }
}
