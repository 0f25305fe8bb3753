/**
 * The configuration form: the field-scoped update every input goes through,
 * the symbol and supply normalisers applied on entry, the decimals select,
 * the feature toggles, the validity test and the deploy button's enabled state.
 */
module TokenForm {
  import opened Text
  import opened Config

  /** `updateConfig(key, value)`: a copy of the configuration with one field replaced. */
  function Update(c: TokenConfig, f: Field, v: Value): (r: TokenConfig)
    requires Fits(f, v)
    ensures Get(r, f) == v
    ensures forall g :: g != f ==> Get(r, g) == Get(c, g)
  {
    match f
    case NameField => c.(name := v.s)
    case SymbolField => c.(symbol := v.s)
    case SupplyField => c.(supply := v.s)
    case DecimalsField => c.(decimals := v.n)
    case BurnableField => c.(burnable := v.b)
    case MintableField => c.(mintable := v.b)
    case PausableField => c.(pausable := v.b)
  }

  /** Writing back the value a field already holds changes nothing. */
  lemma UpdateSameValue(c: TokenConfig, f: Field)
    ensures Fits(f, Get(c, f)) && Update(c, f, Get(c, f)) == c
  {
    GetFits(c, f);
    FieldsDetermineConfig(Update(c, f, Get(c, f)), c);
  }

  /** A later write to the same field overrides an earlier one. */
  lemma UpdateOverwrites(c: TokenConfig, f: Field, v: Value, w: Value)
    requires Fits(f, v) && Fits(f, w)
    ensures Update(Update(c, f, v), f, w) == Update(c, f, w)
  {
    FieldsDetermineConfig(Update(Update(c, f, v), f, w), Update(c, f, w));
  }

  /** The longest symbol the form keeps. */
  const MaxSymbolLength := 8

  /** A symbol as the form can store it: at most 8 characters, no lower-case ASCII letter. */
  predicate IsNormalSymbol(s: string)
  {
    |s| <= MaxSymbolLength && forall i :: 0 <= i < |s| ==> !IsAsciiLower(s[i])
  }

  /** `value.toUpperCase().slice(0, 8)`. */
  function NormalizeSymbol(input: string): (r: string)
    ensures |r| == if |input| < MaxSymbolLength then |input| else MaxSymbolLength
    ensures forall i :: 0 <= i < |r| ==> r[i] == UpperChar(input[i])
    ensures IsNormalSymbol(r)
    ensures r == [] <==> input == []
  {
    var upper := ToUpper(input);
    if |upper| <= MaxSymbolLength then upper else upper[..MaxSymbolLength]
  }

  /** The symbols the normaliser leaves alone are exactly the normal ones. */
  lemma NormalizeSymbolFixedPoint(s: string)
    ensures NormalizeSymbol(s) == s <==> IsNormalSymbol(s)
  {
    if IsNormalSymbol(s) {
      var r := NormalizeSymbol(s);
      assert |r| == |s|;
      forall i | 0 <= i < |s| ensures r[i] == s[i] {
        assert !IsAsciiLower(s[i]);
      }
    }
  }

  /** Normalising a symbol twice gives what normalising once gives. */
  lemma NormalizeSymbolIdempotent(s: string)
    ensures NormalizeSymbol(NormalizeSymbol(s)) == NormalizeSymbol(s)
  {
    NormalizeSymbolFixedPoint(NormalizeSymbol(s));
  }

  /** A supply as the form can store it: decimal digits only. */
  predicate AllDigits(s: string)
  {
    forall i :: 0 <= i < |s| ==> IsDigit(s[i])
  }

  /** `value.replace(/[^0-9]/g, '')`. */
  function NormalizeSupply(input: string): (r: string)
    ensures AllDigits(r)
    ensures |r| <= |input|
    ensures IsSubsequence(r, input)
    ensures r == [] <==> forall i :: 0 <= i < |input| ==> !IsDigit(input[i])
  {
    RemoveAllIsSubsequence(input, NonDigit);
    RemoveAllEmpty(input, NonDigit);
    RemoveAll(input, NonDigit)
  }

  /** Every digit of the input survives the filter, as often as it was typed. */
  lemma NormalizeSupplyKeepsDigits(input: string)
    ensures forall c :: IsDigit(c) ==> multiset(NormalizeSupply(input))[c] == multiset(input)[c]
    ensures forall c :: !IsDigit(c) ==> c !in NormalizeSupply(input)
  {
    RemoveAllCounts(input, NonDigit);
  }

  /** The supplies the filter leaves alone are exactly the all-digit ones. */
  lemma NormalizeSupplyFixedPoint(s: string)
    ensures NormalizeSupply(s) == s <==> AllDigits(s)
  {
    RemoveAllFixedPoint(s, NonDigit);
  }

  /** Filtering a supply twice gives what filtering once gives. */
  lemma NormalizeSupplyIdempotent(s: string)
    ensures NormalizeSupply(NormalizeSupply(s)) == NormalizeSupply(s)
  {
    NormalizeSupplyFixedPoint(NormalizeSupply(s));
  }

  /** The four entries of the decimals select, in the order shown. */
  datatype DecimalsOption = Standard | Eight | UsdcLike | Zero

  /** The values of the decimals select. */
  const DecimalsChoices: seq<int> := [18, 8, 6, 0]

  /** The number an entry of the select stands for (`parseInt` of its value). */
  function DecimalsValue(o: DecimalsOption): (d: int)
    ensures d in DecimalsChoices
  {
    match o
    case Standard => 18
    case Eight => 8
    case UsdcLike => 6
    case Zero => 0
  }

  /** Every value of the select is offered by some entry, and no two entries share a value. */
  lemma DecimalsOptionsExact(o: DecimalsOption, p: DecimalsOption)
    ensures forall d :: d in DecimalsChoices ==> exists q :: DecimalsValue(q) == d
    ensures DecimalsValue(o) == DecimalsValue(p) <==> o == p
  {
    assert DecimalsValue(Standard) == 18;
    assert DecimalsValue(Eight) == 8;
    assert DecimalsValue(UsdcLike) == 6;
    assert DecimalsValue(Zero) == 0;
  }

  /** The fields a deployment needs. */
  const RequiredFields: set<Field> := {NameField, SymbolField, SupplyField}

  /** `isValid`: name, symbol and supply are all non-empty strings. */
  predicate IsValid(c: TokenConfig)
    ensures IsValid(c) <==> forall f :: f in RequiredFields ==> Get(c, f) != Str("")
    ensures IsValid(c) <==> !(c.name == "" || c.symbol == "" || c.supply == "")
  {
    c.name != "" && c.symbol != "" && c.supply != ""
  }

  /** The deploy button is enabled (`!(!isValid || isDeploying)`). */
  predicate DeployEnabled(c: TokenConfig, isDeploying: bool)
    ensures isDeploying ==> !DeployEnabled(c, isDeploying)
    ensures !IsValid(c) ==> !DeployEnabled(c, isDeploying)
    ensures DeployEnabled(c, isDeploying) <==>
      !isDeploying && forall f :: f in RequiredFields ==> Get(c, f) != Str("")
  {
    IsValid(c) && !isDeploying
  }

  /** One change event of the form. */
  datatype FormEvent =
    | NameInput(text: string)
    | SymbolInput(text: string)
    | DecimalsSelect(option: DecimalsOption)
    | SupplyInput(text: string)
    | Toggle(feature: Feature)

  /** The field an event writes. */
  function EventField(e: FormEvent): Field
  {
    match e
    case NameInput(_) => NameField
    case SymbolInput(_) => SymbolField
    case DecimalsSelect(_) => DecimalsField
    case SupplyInput(_) => SupplyField
    case Toggle(ft) => FeatureField(ft)
  }

  /** The `onChange` handler of each input, applied to the current configuration. */
  function Apply(c: TokenConfig, e: FormEvent): (r: TokenConfig)
    ensures forall g :: g != EventField(e) ==> Get(r, g) == Get(c, g)
    ensures e.NameInput? ==> r.name == e.text
    ensures e.SymbolInput? ==> r.symbol == NormalizeSymbol(e.text)
    ensures e.SupplyInput? ==> r.supply == NormalizeSupply(e.text)
    ensures e.DecimalsSelect? ==> r.decimals == DecimalsValue(e.option)
    ensures e.Toggle? ==> FlagOf(r, e.feature) == !FlagOf(c, e.feature)
  {
    match e
    case NameInput(t) => Update(c, NameField, Str(t))
    case SymbolInput(t) => Update(c, SymbolField, Str(NormalizeSymbol(t)))
    case DecimalsSelect(o) => Update(c, DecimalsField, Num(DecimalsValue(o)))
    case SupplyInput(t) => Update(c, SupplyField, Str(NormalizeSupply(t)))
    case Toggle(ft) => Update(c, FeatureField(ft), Flag(!FlagOf(c, ft)))
  }

  /** Toggling a feature twice restores the configuration. */
  lemma ToggleTwice(c: TokenConfig, ft: Feature)
    ensures Apply(Apply(c, Toggle(ft)), Toggle(ft)) == c
  {
    var c2 := Apply(Apply(c, Toggle(ft)), Toggle(ft));
    assert Get(c2, FeatureField(ft)) == Get(c, FeatureField(ft));
    FieldsDetermineConfig(c2, c);
  }

  /** What every configuration the form produces satisfies. */
  predicate FormInvariant(c: TokenConfig)
  {
    IsNormalSymbol(c.symbol) && AllDigits(c.supply) && c.decimals in DecimalsChoices
  }

  /** The page starts in a form state that is not deploy-eligible. */
  lemma DefaultConfigInvariant()
    ensures FormInvariant(DefaultConfig)
    ensures !IsValid(DefaultConfig)
  {
    assert AllDigits(DefaultConfig.supply);
  }

  /** Each form event keeps the form invariant. */
  lemma ApplyPreservesInvariant(c: TokenConfig, e: FormEvent)
    requires FormInvariant(c)
    ensures FormInvariant(Apply(c, e))
  {
    var r := Apply(c, e);
    assert Get(r, SymbolField) == Get(c, SymbolField) || e.SymbolInput?;
    assert Get(r, SupplyField) == Get(c, SupplyField) || e.SupplyInput?;
    assert Get(r, DecimalsField) == Get(c, DecimalsField) || e.DecimalsSelect?;
  }

  /**
   * How one edit decides deploy-eligibility: typing a symbol keeps it non-empty
   * iff something was typed, typing a supply iff a digit was typed; the
   * select and the toggles never change eligibility.
   */
  lemma EditValidity(c: TokenConfig, e: FormEvent)
    ensures e.NameInput? ==> (IsValid(Apply(c, e)) <==> e.text != "" && c.symbol != "" && c.supply != "")
    ensures e.SymbolInput? ==> (IsValid(Apply(c, e)) <==> c.name != "" && e.text != "" && c.supply != "")
    ensures e.SupplyInput? ==>
      (IsValid(Apply(c, e)) <==> c.name != "" && c.symbol != "" && exists i :: 0 <= i < |e.text| && IsDigit(e.text[i]))
    ensures e.DecimalsSelect? || e.Toggle? ==> (IsValid(Apply(c, e)) <==> IsValid(c))
  {
    var r := Apply(c, e);
    assert Get(r, NameField) == Get(c, NameField) || e.NameInput?;
    assert Get(r, SymbolField) == Get(c, SymbolField) || e.SymbolInput?;
    assert Get(r, SupplyField) == Get(c, SupplyField) || e.SupplyInput?;
  }

  /** A session of form events, applied in order. */
  function ApplyAll(c: TokenConfig, events: seq<FormEvent>): TokenConfig
    decreases |events|
  {
    if events == [] then c else ApplyAll(Apply(c, events[0]), events[1..])
  }

  /** Whatever the user types, selects or toggles, the stored configuration stays in form. */
  lemma {:induction false} ApplyAllPreservesInvariant(c: TokenConfig, events: seq<FormEvent>)
    requires FormInvariant(c)
    ensures FormInvariant(ApplyAll(c, events))
    decreases |events|
  {
    if events != [] {
      ApplyPreservesInvariant(c, events[0]);
      ApplyAllPreservesInvariant(Apply(c, events[0]), events[1..]);
    }
  }

  /** A session made only of edits to other fields leaves field f as it was. */
  lemma {:induction false} ApplyAllKeepsUntouchedField(c: TokenConfig, events: seq<FormEvent>, f: Field)
    requires forall i :: 0 <= i < |events| ==> EventField(events[i]) != f
    ensures Get(ApplyAll(c, events), f) == Get(c, f)
    decreases |events|
  {
    if events != [] {
      ApplyAllKeepsUntouchedField(Apply(c, events[0]), events[1..], f);
    }
  }

  /** Entering "test" as the symbol stores "TEST". */
  lemma SymbolExample()
    ensures NormalizeSymbol("test") == "TEST"
  {
    assert ToUpper("test") == "TEST";
  }

  /** Entering "abc123000" as the supply stores "123000". */
  lemma SupplyExample()
    ensures NormalizeSupply("abc123000") == "123000"
  {
    var s := "abc123000";
    assert s[1..] == "bc123000";
    assert s[1..][1..] == "c123000";
    assert s[1..][1..][1..] == "123000";
    assert RemoveAll(s, NonDigit) == RemoveAll("123000", NonDigit);
    RemoveAllFixedPoint("123000", NonDigit);
  }

  /**
   * A worked example: typing "Test Coin", "test" and "abc123000" and picking
   * 18 decimals makes any configuration deployable, holding "TEST" and "123000".
   */
  lemma ExampleSession(c: TokenConfig)
    ensures var d := Apply(Apply(Apply(Apply(c, NameInput("Test Coin")), SymbolInput("test")),
                                 SupplyInput("abc123000")), DecimalsSelect(Standard));
            d.name == "Test Coin" && d.symbol == "TEST" && d.supply == "123000" && d.decimals == 18 && IsValid(d)
  {
    var c1 := Apply(c, NameInput("Test Coin"));
    var c2 := Apply(c1, SymbolInput("test"));
    var c3 := Apply(c2, SupplyInput("abc123000"));
    var c4 := Apply(c3, DecimalsSelect(Standard));
    SymbolExample();
    SupplyExample();
    assert Get(c2, NameField) == Get(c1, NameField);
    assert Get(c3, NameField) == Get(c2, NameField) && Get(c3, SymbolField) == Get(c2, SymbolField);
    assert Get(c4, NameField) == Get(c3, NameField) && Get(c4, SymbolField) == Get(c3, SymbolField);
    assert Get(c4, SupplyField) == Get(c3, SupplyField);
  }
}
