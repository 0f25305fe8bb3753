/**
 * The token configuration record edited by the form, read by the preview and
 * by the deploy handler, with field-wise access used to state
 * "exactly one field changes".
 */
module Config {

  /** The seven fields of a token configuration; `decimals` is a JavaScript number. */
  datatype TokenConfig = TokenConfig(
    name: string,
    symbol: string,
    supply: string,
    decimals: int,
    burnable: bool,
    mintable: bool,
    pausable: bool)

  /** The configuration the page starts with. */
  const DefaultConfig: TokenConfig :=
    TokenConfig(name := "", symbol := "", supply := "1000000", decimals := 18,
                burnable := false, mintable := false, pausable := false)

  /** The keys of a configuration (`keyof TokenConfig`). */
  datatype Field =
    | NameField | SymbolField | SupplyField | DecimalsField
    | BurnableField | MintableField | PausableField

  /** The values a field can hold (`string | number | boolean`). */
  datatype Value = Str(s: string) | Num(n: int) | Flag(b: bool)

  /** The three optional contract features, in the order the page lists them. */
  datatype Feature = Burn | Mint | Pause

  /** Reading one field. */
  function Get(c: TokenConfig, f: Field): Value
  {
    match f
    case NameField => Str(c.name)
    case SymbolField => Str(c.symbol)
    case SupplyField => Str(c.supply)
    case DecimalsField => Num(c.decimals)
    case BurnableField => Flag(c.burnable)
    case MintableField => Flag(c.mintable)
    case PausableField => Flag(c.pausable)
  }

  /** A value has the type the field declares. */
  predicate Fits(f: Field, v: Value)
  {
    match f
    case NameField | SymbolField | SupplyField => v.Str?
    case DecimalsField => v.Num?
    case BurnableField | MintableField | PausableField => v.Flag?
  }

  /** The field that stores a feature's flag. */
  function FeatureField(ft: Feature): (f: Field)
    ensures Fits(f, Flag(false))
  {
    match ft
    case Burn => BurnableField
    case Mint => MintableField
    case Pause => PausableField
  }

  /** Distinct features store their flags in distinct fields. */
  lemma FeatureFieldInjective(a: Feature, b: Feature)
    ensures FeatureField(a) == FeatureField(b) <==> a == b
  {
  }

  /** The current value of a feature's flag. */
  function FlagOf(c: TokenConfig, ft: Feature): (b: bool)
    ensures Get(c, FeatureField(ft)) == Flag(b)
  {
    match ft
    case Burn => c.burnable
    case Mint => c.mintable
    case Pause => c.pausable
  }

  /** Every field holds a value of its own type. */
  lemma GetFits(c: TokenConfig, f: Field)
    ensures Fits(f, Get(c, f))
  {
  }

  /** Two configurations that agree on every field are equal. */
  lemma FieldsDetermineConfig(c: TokenConfig, d: TokenConfig)
    requires forall f :: Get(c, f) == Get(d, f)
    ensures c == d
  {
    assert Get(c, NameField) == Get(d, NameField);
    assert Get(c, SymbolField) == Get(d, SymbolField);
    assert Get(c, SupplyField) == Get(d, SupplyField);
    assert Get(c, DecimalsField) == Get(d, DecimalsField);
    assert Get(c, BurnableField) == Get(d, BurnableField);
    assert Get(c, MintableField) == Get(d, MintableField);
    assert Get(c, PausableField) == Get(d, PausableField);
  }
}
