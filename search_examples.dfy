/** The billing search worked through on the first three default items:
    Rice, Sugar and Salt. */
module SearchExamples {
  import opened Wrappers
  import opened Text
  import opened Numbers
  import opened Store
  import opened Billing

  const Rice := Item("1", "Rice", "ಅಕ್ಕಿ", 60.0, "kg")
  const Sugar := Item("2", "Sugar", "ಸಕ್ಕರೆ", 45.0, "kg")
  const Salt := Item("3", "Salt", "ಉಪ್ಪು", 20.0, "kg")

  lemma FirstThreeDefaults()
    ensures DefaultItems[..3] == [Rice, Sugar, Salt]
  {
  }

  /** The query "2" picks the second item by position. */
  lemma SearchByPositionExample()
    ensures FilteredItems(DefaultItems[..3], "2") == [Sugar]
  {
    FirstThreeDefaults();
    TwoPicksSecond(DefaultItems[..3]);
  }

  /** Over any three items, "2" is a position and picks the second. */
  lemma TwoPicksSecond(items: seq<Item>)
    requires |items| == 3
    ensures FilteredItems(items, "2") == [items[1]]
  {
    assert Position(Query("2"), 3) == Some(2) by {
      TwoQuery();
      TwoIsNumber();
    }
    assert !IsBlank("2") by {
      assert !IsSpace("2"[0]);
    }
  }

  lemma TwoQuery()
    ensures Query("2") == "2"
  {
    TrimOfTrimmed("2");
    var lower := ToLower("2");
    assert |lower| == 1 && lower[0] == LowerChar('2');
    assert lower == "2";
  }

  lemma TwoIsNumber()
    ensures ParseInt("2") == Some(2)
  {
    assert TrimStart("2") == "2";
    assert SplitSign("2") == (1, "2");
    assert DigitPrefix("2") == "2";
  }

  /** The query " Lt", which holds no number, finds Salt by its name after
      trimming and lower-casing. */
  lemma SearchByNameExample()
    ensures FilteredItems(DefaultItems[..3], " Lt") == [Salt]
  {
    FirstThreeDefaults();
    LtQuery();
    LtNameSearch();
  }

  lemma LtQuery()
    ensures Query(" Lt") == "lt" && Position("lt", 3).None?
  {
    LtTrimmed();
    LtNotNumber();
  }

  lemma LtTrimmed()
    ensures Query(" Lt") == "lt"
  {
    assert Trim(" Lt") == "Lt";
  }

  lemma LtNotNumber()
    ensures ParseInt("lt") == None
  {
    assert TrimStart("lt") == "lt";
    assert SplitSign("lt") == (1, "lt");
    assert DigitPrefix("lt") == [];
  }

  lemma LtNameSearch()
    ensures NameSearch([Rice, Sugar, Salt], "lt") == [Salt]
  {
    RiceMisses();
    LtNameSearchTail();
    assert [Rice, Sugar, Salt][1..] == [Sugar, Salt];
  }

  lemma LtNameSearchTail()
    ensures NameSearch([Sugar, Salt], "lt") == [Salt]
  {
    SugarMisses();
    LtNameSearchSalt();
    assert [Sugar, Salt][1..] == [Salt];
  }

  lemma LtNameSearchSalt()
    ensures NameSearch([Salt], "lt") == [Salt]
  {
    SaltHits();
    assert [Salt][1..] == [];
  }

  lemma RiceMisses()
    ensures !SearchHit(Rice, "lt")
  {
    var lower := ToLower("Rice");
    assert lower[0] == LowerChar('R') && lower == "rice";
    NotContainsFirst("rice", "lt");
    assert "rice"[..2] == "ri";
    NotContainsFirst(Rice.nameKn, "lt");
  }

  lemma SugarMisses()
    ensures !SearchHit(Sugar, "lt")
  {
    var lower := ToLower("Sugar");
    assert lower[0] == LowerChar('S') && lower == "sugar";
    NotContainsFirst("sugar", "lt");
    assert "sugar"[..2] == "su";
    NotContainsFirst(Sugar.nameKn, "lt");
  }

  lemma SaltHits()
    ensures NameMatches(Salt, "lt")
  {
    var lower := ToLower("Salt");
    assert lower[0] == LowerChar('S') && lower == "salt";
    assert OccursAt("salt", "lt", 2);
  }
}
