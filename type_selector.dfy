/** The hierarchical type selector: seven taxonomic levels, from kingdom down to species.
    Choosing a value at one level clears every deeper level, and the label shown for a
    selection is its deepest chosen level. */
module TypeSelector {
  datatype Level = Kingdom | Phylum | Class | Order | Family | Genus | Species

  /** The levels from the broadest to the narrowest. */
  const Fields: seq<Level> := [Kingdom, Phylum, Class, Order, Family, Genus, Species]

  /** The position of a level in `Fields`. */
  function Index(l: Level): (i: nat)
    ensures i < |Fields| && Fields[i] == l
  {
    match l
    case Kingdom => 0
    case Phylum => 1
    case Class => 2
    case Order => 3
    case Family => 4
    case Genus => 5
    case Species => 6
  }

  /** Each level appears once in `Fields`, so its position is the one `indexOf` finds. */
  lemma IndexIsFirst(l: Level)
    ensures forall j :: 0 <= j < Index(l) ==> Fields[j] != l
  {
  }

  /** A selection: one value, possibly empty, per level. */
  datatype TypeData = TypeData(
    kingdom: string, phylum: string, class_: string, order: string,
    family: string, genus: string, species: string)

  /** Nothing chosen at any level. */
  const Unset := TypeData("", "", "", "", "", "", "")

  /** `value[field]`. */
  function Get(t: TypeData, l: Level): string {
    match l
    case Kingdom => t.kingdom
    case Phylum => t.phylum
    case Class => t.class_
    case Order => t.order
    case Family => t.family
    case Genus => t.genus
    case Species => t.species
  }

  /** `t[field] = v` on a copy: that level changes, no other. */
  function Set(t: TypeData, l: Level, v: string): (r: TypeData)
    ensures Get(r, l) == v
    ensures forall m :: m != l ==> Get(r, m) == Get(t, m)
  {
    match l
    case Kingdom => t.(kingdom := v)
    case Phylum => t.(phylum := v)
    case Class => t.(class_ := v)
    case Order => t.(order := v)
    case Family => t.(family := v)
    case Genus => t.(genus := v)
    case Species => t.(species := v)
  }

  /** Two selections with the same value at every level are the same selection. */
  lemma SameLevels(a: TypeData, b: TypeData)
    requires forall l :: Get(a, l) == Get(b, l)
    ensures a == b
  {
    assert Get(a, Kingdom) == Get(b, Kingdom) && Get(a, Phylum) == Get(b, Phylum);
    assert Get(a, Class) == Get(b, Class) && Get(a, Order) == Get(b, Order);
    assert Get(a, Family) == Get(b, Family) && Get(a, Genus) == Get(b, Genus);
    assert Get(a, Species) == Get(b, Species);
  }

  // ---------------------------------------------------------------------------
  // Choosing a level

  /** The value level `l` has after `newValue` is chosen at `field`. */
  function After(value: TypeData, field: Level, newValue: string, l: Level): string {
    if l == field then newValue else if Index(l) < Index(field) then Get(value, l) else ""
  }

  /** The record after `newValue` is chosen at `field`: that level takes the value, the
      broader levels keep theirs, and every narrower level is cleared. */
  function Changed(value: TypeData, field: Level, newValue: string): (r: TypeData)
    ensures Get(r, field) == newValue
    ensures forall l :: Index(l) < Index(field) ==> Get(r, l) == Get(value, l)
    ensures forall l :: Index(l) > Index(field) ==> Get(r, l) == ""
  {
    TypeData(
      After(value, field, newValue, Kingdom), After(value, field, newValue, Phylum),
      After(value, field, newValue, Class), After(value, field, newValue, Order),
      After(value, field, newValue, Family), After(value, field, newValue, Genus),
      After(value, field, newValue, Species))
  }

  /** `handleChange`: a copy of the record with the chosen level set, then a loop over the
      levels after it clearing each one. The input record is a value and stays as it was. */
  method HandleChange(value: TypeData, field: Level, newValue: string) returns (newType: TypeData)
    ensures Get(newType, field) == newValue
    ensures forall l :: Index(l) < Index(field) ==> Get(newType, l) == Get(value, l)
    ensures forall l :: Index(l) > Index(field) ==> Get(newType, l) == ""
    ensures newType == Changed(value, field, newValue)
  {
    newType := Set(value, field, newValue);
    var currentIndex := Index(field);
    for i := currentIndex + 1 to |Fields|
      invariant Get(newType, field) == newValue
      invariant forall l :: Index(l) < currentIndex ==> Get(newType, l) == Get(value, l)
      invariant forall l :: currentIndex < Index(l) < i ==> Get(newType, l) == ""
    {
      newType := Set(newType, Fields[i], "");
    }
    SameAfterChange(newType, value, field, newValue);
  }

  /** A record meeting the three clauses of `Changed` is `Changed`. */
  lemma SameAfterChange(t: TypeData, value: TypeData, field: Level, newValue: string)
    requires Get(t, field) == newValue
    requires forall l :: Index(l) < Index(field) ==> Get(t, l) == Get(value, l)
    requires forall l :: Index(l) > Index(field) ==> Get(t, l) == ""
    ensures t == Changed(value, field, newValue)
  {
    var expected := Changed(value, field, newValue);
    forall l: Level ensures Get(t, l) == Get(expected, l) {
      if Index(l) == Index(field) {
        assert l == field;
      }
    }
    SameLevels(t, expected);
  }

  /** Choosing the same value at the same level twice gives the record choosing it once. */
  lemma ChangeIdempotent(value: TypeData, field: Level, newValue: string)
    ensures Changed(Changed(value, field, newValue), field, newValue) == Changed(value, field, newValue)
  {
    var once := Changed(value, field, newValue);
    SameAfterChange(once, once, field, newValue);
  }

  /** A later choice at a broader or equal level overrides everything an earlier choice at a
      narrower or equal level did. */
  lemma BroaderChangeOverrides(value: TypeData, deep: Level, x: string, broad: Level, y: string)
    requires Index(broad) <= Index(deep)
    ensures Changed(Changed(value, deep, x), broad, y) == Changed(value, broad, y)
  {
    SameAfterChange(Changed(Changed(value, deep, x), broad, y), value, broad, y);
  }

  // ---------------------------------------------------------------------------
  // The label shown

  /** The label shown when no level is chosen. */
  const NoTypeLabel := "타입 선택"

  /** `getDisplayValue`: the first non-empty level from species up to kingdom, or the
      "choose a type" label. */
  function DisplayValue(value: TypeData): string {
    var parts :=
      if value.species != "" then [value.species]
      else if value.genus != "" then [value.genus]
      else if value.family != "" then [value.family]
      else if value.order != "" then [value.order]
      else if value.class_ != "" then [value.class_]
      else if value.phylum != "" then [value.phylum]
      else if value.kingdom != "" then [value.kingdom]
      else [];
    if parts != [] && parts[0] != "" then parts[0] else NoTypeLabel
  }

  /** The deepest chosen level is the one shown. */
  lemma DisplayDeepest(value: TypeData, l: Level)
    requires Get(value, l) != ""
    requires forall m :: Index(m) > Index(l) ==> Get(value, m) == ""
    ensures DisplayValue(value) == Get(value, l)
  {
    assert Index(l) < 6 ==> Get(value, Species) == "";
    assert Index(l) < 5 ==> Get(value, Genus) == "";
    assert Index(l) < 4 ==> Get(value, Family) == "";
    assert Index(l) < 3 ==> Get(value, Order) == "";
    assert Index(l) < 2 ==> Get(value, Class) == "";
    assert Index(l) < 1 ==> Get(value, Phylum) == "";
  }

  /** With nothing chosen the "choose a type" label is shown. */
  lemma DisplayUnset(value: TypeData)
    requires forall l :: Get(value, l) == ""
    ensures DisplayValue(value) == NoTypeLabel
  {
    assert Get(value, Species) == "" && Get(value, Genus) == "" && Get(value, Family) == "";
    assert Get(value, Order) == "" && Get(value, Class) == "" && Get(value, Phylum) == "";
    assert Get(value, Kingdom) == "";
  }

  /** Choosing a non-empty value makes it the label shown: every deeper level was cleared. */
  lemma ChangeShowsChoice(value: TypeData, field: Level, newValue: string)
    requires newValue != ""
    ensures DisplayValue(Changed(value, field, newValue)) == newValue
  {
    DisplayDeepest(Changed(value, field, newValue), field);
  }

  /** Clearing the kingdom clears the whole selection, and the "choose a type" label is
      shown. */
  lemma ClearKingdomShowsLabel(value: TypeData)
    ensures Changed(value, Kingdom, "") == Unset
    ensures DisplayValue(Changed(value, Kingdom, "")) == NoTypeLabel
  {
    var r := Changed(value, Kingdom, "");
    forall l: Level ensures Get(r, l) == "" {
      if Index(l) == 0 {
        assert l == Kingdom;
      }
    }
    assert forall l :: Get(r, l) == Get(Unset, l);
    SameLevels(r, Unset);
    DisplayUnset(r);
  }
}
