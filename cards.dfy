/** The two class-id tables of the card detector and the label built from them. */
module CardLabels {
  import opened Wrappers

  /** Class id -> rank or action (`card_types`). */
  function CardTypes(): (r: map<int, string>)
    ensures forall id :: id in r ==> 0 <= id <= 19 && !(1 <= id <= 4) && id != 15 && r[id] != ""
  {
    map[0 := "+2", 5 := "0", 6 := "1", 7 := "2", 8 := "3", 9 := "4", 10 := "5", 11 := "6",
        12 := "7", 13 := "8", 14 := "9", 16 := "Reverse", 17 := "Skip", 18 := "Wild",
        19 := "Wild Draw 4"]
  }

  /** Class id -> card colour (`card_colors`). */
  function CardColors(): (r: map<int, string>)
    ensures forall id :: id in r ==> 1 <= id <= 20 && id != 3 && r[id] != ""
  {
    map[1 := "Black", 2 := "Blue", 4 := "Green", 15 := "Red", 20 := "Yellow"]
  }

  /** Python's `dict.get`: the entry, or `None` when the key is absent. */
  function Get(m: map<int, string>, key: int): (r: Option<string>)
    ensures r.Some? <==> key in m
    ensures r.Some? ==> r.value == m[key]
  {
    if key in m then Some(m[key]) else None
  }

  /** Python truthiness of an optional string: `None` and `""` are false. */
  predicate Truthy(s: Option<string>)
  {
    s.Some? && s.value != ""
  }

  /**
   * The label expression `f"{color} {card_type}" if color and card_type else color or card_type`,
   * evaluated with Python's `and`/`or` on optional strings.
   */
  function ComposeLabel(color: Option<string>, cardType: Option<string>): (r: Option<string>)
    ensures Truthy(r) <==> Truthy(color) || Truthy(cardType)
    ensures Truthy(color) && Truthy(cardType) ==> r == Some(color.value + " " + cardType.value)
    ensures Truthy(color) != Truthy(cardType) ==> r == (if Truthy(color) then color else cardType)
  {
    if Truthy(color) && Truthy(cardType) then Some(color.value + " " + cardType.value)
    else if Truthy(color) then color
    else cardType
  }

  /**
   * The label a detection of class `classId` gets, or `None` when the `if card_label:` test
   * fails and the detection is dropped.
   */
  function CardLabel(classId: int): (r: Option<string>)
    ensures r.Some? <==> classId in CardColors() || classId in CardTypes()
    ensures r.Some? ==> r.value != ""
  {
    var composed := ComposeLabel(Get(CardColors(), classId), Get(CardTypes(), classId));
    if Truthy(composed) then composed else None
  }

  /** No class id is both a colour and a rank, so no label ever has the combined form. */
  lemma TablesDisjoint()
    ensures CardTypes().Keys !! CardColors().Keys
  {
    forall id | id in CardColors() ensures id !in CardTypes() {
      assert id == 1 || id == 2 || id == 4 || id == 15 || id == 20;
    }
  }

  /** The label is exactly the one table entry that resolves. */
  lemma CardLabelIsSingleEntry(classId: int)
    ensures classId in CardTypes() ==> CardLabel(classId) == Some(CardTypes()[classId])
    ensures classId in CardColors() ==> CardLabel(classId) == Some(CardColors()[classId])
  {
    TablesDisjoint();
    assert forall id | id in CardTypes() :: CardTypes()[id] != "";
    assert forall id | id in CardColors() :: CardColors()[id] != "";
  }

  /** Ids 3, negative ids and ids above 20 are always dropped; every other id is kept. */
  lemma DroppedIds(classId: int)
    ensures CardLabel(classId).None? <==> classId < 0 || classId == 3 || classId > 20
  {
    if 0 <= classId <= 20 && classId != 3 {
      assert classId in CardTypes().Keys + CardColors().Keys;
    }
  }

  /** The three label forms: colour and rank, colour alone, rank alone. */
  lemma LabelFormats()
    ensures ComposeLabel(Some("Red"), Some("5")) == Some("Red 5")
    ensures ComposeLabel(Some("Blue"), None) == Some("Blue")
    ensures ComposeLabel(None, Some("Skip")) == Some("Skip")
    ensures CardLabel(7) == Some("2") && CardLabel(17) == Some("Skip") && CardLabel(2) == Some("Blue")
  {
    assert "Red" + " " + "5" == "Red 5";
  }
}
