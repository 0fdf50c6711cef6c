/**
 * Ingredient extraction from a lookup record: slots 1 to 20 each carry an
 * optional ingredient name and an optional measure; every slot whose name is
 * not blank becomes one display line, "<measure> <ingredient>".
 */
module Ingredients {
  import opened Wrappers
  import opened Text

  /** The number of `strIngredientN` / `strMeasureN` slot pairs on a record. */
  const SlotCount: nat := 20

  /**
   * A record of the lookup endpoint. The numbered slots are maps from the slot
   * number to the property's value; a missing key and `None` both stand for
   * an absent or `null` property.
   */
  datatype MealRecord = MealRecord(
    id: string,
    name: string,
    thumbnail: string,
    category: Option<string>,
    area: Option<string>,
    instructions: Option<string>,
    youtube: Option<string>,
    ingredientSlots: map<nat, Option<string>>,
    measureSlots: map<nat, Option<string>>)

  /** `meal[`strIngredient${i}`]` and friends: `None` when the property is absent. */
  function Slot(slots: map<nat, Option<string>>, i: nat): Option<string> {
    if i in slots then slots[i] else None
  }

  /** JavaScript truthiness of a string-or-null value: present and non-empty. */
  predicate Truthy(v: Option<string>) {
    v.Some? && v.value != []
  }

  /** Slot `i` holds an ingredient name that is not blank: `ing && ing.trim()`. */
  predicate HasIngredient(rec: MealRecord, i: nat) {
    var ing := Slot(rec.ingredientSlots, i);
    Truthy(ing) && Trim(ing.value) != []
  }

  /**
   * One display line: the trimmed measure and a space, when the measure is
   * truthy, followed by the trimmed ingredient name.
   */
  function FormatEntry(measure: Option<string>, ing: string): string {
    (if Truthy(measure) then Trim(measure.value) + " " else "") + Trim(ing)
  }

  /** The line slot `i` would produce (the name is read as "" when absent). */
  function Line(rec: MealRecord, i: nat): string {
    var ing := Slot(rec.ingredientSlots, i);
    FormatEntry(Slot(rec.measureSlots, i), if ing.Some? then ing.value else "")
  }

  // ----- scanning numbered slots, for any notion of a usable slot -----

  /** The slots among 1..n for which `usable` holds, in ascending order. */
  function SlotsWhere(usable: nat -> bool, n: nat): seq<nat> {
    if n == 0 then [] else SlotsWhere(usable, n - 1) + (if usable(n) then [n] else [])
  }

  /** The lines of the usable slots among 1..n, in slot order. */
  function LinesWhere(usable: nat -> bool, line: nat -> string, n: nat): seq<string> {
    if n == 0 then [] else LinesWhere(usable, line, n - 1) + (if usable(n) then [line(n)] else [])
  }

  lemma {:induction false} SlotsWhereAscend(usable: nat -> bool, n: nat)
    ensures |SlotsWhere(usable, n)| <= n
    ensures forall j :: 0 <= j < |SlotsWhere(usable, n)| ==>
      1 <= SlotsWhere(usable, n)[j] <= n && usable(SlotsWhere(usable, n)[j])
    ensures forall j, k :: 0 <= j < k < |SlotsWhere(usable, n)| ==> SlotsWhere(usable, n)[j] < SlotsWhere(usable, n)[k]
  {
    if n > 0 {
      SlotsWhereAscend(usable, n - 1);
    }
  }

  lemma {:induction false} SlotsWhereComplete(usable: nat -> bool, n: nat, i: nat)
    requires 1 <= i <= n && usable(i)
    ensures i in SlotsWhere(usable, n)
  {
    if i < n {
      SlotsWhereComplete(usable, n - 1, i);
    }
  }

  lemma {:induction false} LinesBySlot(usable: nat -> bool, line: nat -> string, n: nat)
    ensures |LinesWhere(usable, line, n)| == |SlotsWhere(usable, n)|
    ensures forall j :: 0 <= j < |SlotsWhere(usable, n)| ==>
      LinesWhere(usable, line, n)[j] == line(SlotsWhere(usable, n)[j])
  {
    if n > 0 {
      LinesBySlot(usable, line, n - 1);
    }
  }

  lemma {:induction false} LinesSingleSlot(usable: nat -> bool, line: nat -> string, n: nat, slot: nat)
    requires 1 <= slot && usable(slot)
    requires forall i :: i != slot ==> !usable(i)
    ensures LinesWhere(usable, line, n) == if n >= slot then [line(slot)] else []
  {
    if n > 0 {
      LinesSingleSlot(usable, line, n - 1, slot);
    }
  }

  // ----- the extraction rule -----

  /** The display lines of slots 1 to `n`, in slot order. */
  function Extracted(rec: MealRecord, n: nat): seq<string> {
    LinesWhere((i: nat) => HasIngredient(rec, i), (i: nat) => Line(rec, i), n)
  }

  /** The slots among 1 to `n` that yield a line, in ascending order. */
  function KeptSlots(rec: MealRecord, n: nat): seq<nat> {
    SlotsWhere((i: nat) => HasIngredient(rec, i), n)
  }

  /** The extraction loop of the detail view, which appends one line per usable slot. */
  method ExtractIngredients(rec: MealRecord) returns (ingredients: seq<string>)
    ensures ingredients == Extracted(rec, SlotCount)
  {
    ingredients := [];
    for i := 1 to SlotCount + 1
      invariant ingredients == Extracted(rec, i - 1)
    {
      assert Extracted(rec, i) ==
        Extracted(rec, i - 1) + (if HasIngredient(rec, i) then [Line(rec, i)] else []);
      var ing := Slot(rec.ingredientSlots, i);
      var measure := Slot(rec.measureSlots, i);
      if HasIngredient(rec, i) {
        ingredients := ingredients + [FormatEntry(measure, ing.value)];
      }
    }
  }

  /**
   * Extraction gives at most 20 lines, one per slot with a non-blank
   * ingredient: line `j` is the line of the `j`-th such slot, the slots
   * strictly ascend (so none repeats), and no such slot is missed.
   */
  lemma ExtractedSlots(rec: MealRecord)
    ensures |Extracted(rec, SlotCount)| == |KeptSlots(rec, SlotCount)| <= SlotCount
    ensures forall j :: 0 <= j < |KeptSlots(rec, SlotCount)| ==>
      && 1 <= KeptSlots(rec, SlotCount)[j] <= SlotCount
      && HasIngredient(rec, KeptSlots(rec, SlotCount)[j])
      && Extracted(rec, SlotCount)[j] == Line(rec, KeptSlots(rec, SlotCount)[j])
    ensures forall j, k :: 0 <= j < k < |KeptSlots(rec, SlotCount)| ==>
      KeptSlots(rec, SlotCount)[j] < KeptSlots(rec, SlotCount)[k]
    ensures forall i :: 1 <= i <= SlotCount && HasIngredient(rec, i) ==> i in KeptSlots(rec, SlotCount)
  {
    var usable := (i: nat) => HasIngredient(rec, i);
    SlotsWhereAscend(usable, SlotCount);
    LinesBySlot(usable, (i: nat) => Line(rec, i), SlotCount);
    forall i | 1 <= i <= SlotCount && HasIngredient(rec, i) ensures i in KeptSlots(rec, SlotCount) {
      SlotsWhereComplete(usable, SlotCount, i);
    }
  }

  /**
   * A line ends with the trimmed ingredient name and is longer than it exactly
   * when the measure is truthy; it then starts with whitespace exactly when the
   * measure is blank, which gives " Salt" for a measure of spaces.
   */
  lemma EntryShape(measure: Option<string>, ing: string)
    requires !IsBlank(ing)
    ensures var e := FormatEntry(measure, ing);
      && |Trim(ing)| <= |e| && e[|e| - |Trim(ing)|..] == Trim(ing)
      && (|e| > |Trim(ing)| <==> Truthy(measure))
      && (IsWhitespace(e[0]) <==> Truthy(measure) && IsBlank(measure.value))
  {
    var e := FormatEntry(measure, ing);
    if Truthy(measure) {
      var m := Trim(measure.value);
      assert e == m + " " + Trim(ing);
      if m == [] {
        assert e[0] == ' ';
      } else {
        assert e[0] == m[0];
      }
    } else {
      assert e == Trim(ing);
    }
  }

  /** A record with a single usable slot yields exactly that slot's line once the scan has passed it. */
  lemma ExtractedSingleSlot(rec: MealRecord, n: nat, slot: nat)
    requires 1 <= slot <= n && HasIngredient(rec, slot)
    requires forall i :: i != slot ==> !HasIngredient(rec, i)
    ensures Extracted(rec, n) == [Line(rec, slot)]
  {
    LinesSingleSlot((i: nat) => HasIngredient(rec, i), (i: nat) => Line(rec, i), n, slot);
  }

  /** Slot 3 is the only usable slot of a record whose only ingredient is "Salt" in slot 3. */
  lemma SaltIsOnlyIngredient(rec: MealRecord)
    requires rec.ingredientSlots == map[3 := Some("Salt")]
    ensures HasIngredient(rec, 3) && Trim(Slot(rec.ingredientSlots, 3).value) == "Salt"
    ensures forall i :: i != 3 ==> !HasIngredient(rec, i)
  {
    SaltSlotIsUsable(rec);
    OtherSlotsAreEmpty(rec);
  }

  /** Slot 3 holds "Salt", which is not blank and is its own trim. */
  lemma SaltSlotIsUsable(rec: MealRecord)
    requires rec.ingredientSlots == map[3 := Some("Salt")]
    ensures HasIngredient(rec, 3) && Trim(Slot(rec.ingredientSlots, 3).value) == "Salt"
  {
    assert Slot(rec.ingredientSlots, 3) == Some("Salt");
    SaltIsItsOwnTrim();
  }

  /** Every slot other than 3 is absent, so none of them yields a line. */
  lemma OtherSlotsAreEmpty(rec: MealRecord)
    requires rec.ingredientSlots == map[3 := Some("Salt")]
    ensures forall i :: i != 3 ==> !HasIngredient(rec, i)
  {
    forall i | i != 3 ensures !HasIngredient(rec, i) {
      assert i !in rec.ingredientSlots;
    }
  }

  /** "Salt" holds no whitespace, so its trim is itself and not empty. */
  lemma SaltIsItsOwnTrim()
    ensures Trim("Salt") == "Salt" && Trim("Salt") != []
  {
    TrimNoWhitespace("Salt");
    assert |Trim("Salt")| == 4;
  }

  /**
   * A record whose only ingredient is "Salt" in slot 3, with measure "",
   * yields exactly ["Salt"] once the scan has passed slot 3 (as it has at slot 20).
   */
  lemma OnlySaltInSlotThree(rec: MealRecord, n: nat)
    requires rec.ingredientSlots == map[3 := Some("Salt")]
    requires rec.measureSlots == map[3 := Some("")]
    requires 3 <= n
    ensures Extracted(rec, n) == ["Salt"]
  {
    SaltIsOnlyIngredient(rec);
    ExtractedSingleSlot(rec, n, 3);
    assert !Truthy(Slot(rec.measureSlots, 3));
    assert Slot(rec.ingredientSlots, 3) == Some("Salt");
    assert Line(rec, 3) == [] + "Salt" == "Salt";
  }

  /** A measure made only of spaces is truthy, so it leaves a leading space: " Salt". */
  lemma BlankMeasureLeavesSpace(rec: MealRecord, n: nat)
    requires rec.ingredientSlots == map[3 := Some("Salt")]
    requires rec.measureSlots == map[3 := Some("  ")]
    requires 3 <= n
    ensures Extracted(rec, n) == [" Salt"]
  {
    SaltIsOnlyIngredient(rec);
    ExtractedSingleSlot(rec, n, 3);
    var measure := Slot(rec.measureSlots, 3);
    assert measure == Some("  ") && Truthy(measure);
    assert IsBlank("  ");
    assert Trim(measure.value) == [];
    assert Slot(rec.ingredientSlots, 3) == Some("Salt");
    assert Line(rec, 3) == [] + " " + "Salt" == " Salt";
  }
}
