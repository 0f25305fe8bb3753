/**
 * The live preview: a token card and a pseudo-Solidity snippet, both derived
 * from the configuration alone.
 */
module Preview {
  import opened Text
  import opened Config
  import opened TokenForm

  /** One feature badge of the card. */
  datatype Badge = Badge(feature: Feature, title: string, active: bool)

  /** The title printed on a feature's badge. */
  function FeatureLabel(ft: Feature): string
  {
    match ft
    case Burn => "Burn"
    case Mint => "Mint"
    case Pause => "Pause"
  }

  /** The `features` list: burn, mint, pause, each lit when its flag is set. */
  function Features(c: TokenConfig): (r: seq<Badge>)
    ensures |r| == 3
    ensures r[0].feature == Burn && r[1].feature == Mint && r[2].feature == Pause
    ensures forall i :: 0 <= i < |r| ==> r[i].title == FeatureLabel(r[i].feature)
    ensures forall i :: 0 <= i < |r| ==> r[i].active == FlagOf(c, r[i].feature)
  {
    [Badge(Burn, FeatureLabel(Burn), c.burnable),
     Badge(Mint, FeatureLabel(Mint), c.mintable),
     Badge(Pause, FeatureLabel(Pause), c.pausable)]
  }

  /** Toggling a feature in the form flips its badge and leaves the other two as they were. */
  lemma ToggleFlipsOneBadge(c: TokenConfig, ft: Feature)
    ensures forall i :: 0 <= i < 3 ==>
      Features(Apply(c, Toggle(ft)))[i].active ==
        (if Features(c)[i].feature == ft then !Features(c)[i].active else Features(c)[i].active)
  {
    var d := Apply(c, Toggle(ft));
    forall ft' | ft' != ft ensures FlagOf(d, ft') == FlagOf(c, ft') {
      FeatureFieldInjective(ft', ft);
      assert Get(d, FeatureField(ft')) == Get(c, FeatureField(ft'));
    }
  }

  /** The letter on the token icon: `symbol.charAt(0)`, or `'?'` while the symbol is empty. */
  function IconInitial(c: TokenConfig): (r: char)
    ensures c.symbol != "" ==> r == c.symbol[0]
    ensures c.symbol == "" ==> r == '?'
  {
    if c.symbol != "" then c.symbol[0] else '?'
  }

  /** After a non-empty symbol is typed, the icon shows its first character, upper-cased. */
  lemma IconInitialAfterSymbolInput(c: TokenConfig, text: string)
    requires text != ""
    ensures IconInitial(Apply(c, SymbolInput(text))) == UpperChar(text[0])
    ensures !IsAsciiLower(IconInitial(Apply(c, SymbolInput(text))))
  {
  }

  /** The heading of the card: the name, or "Token Name" while it is empty. */
  function DisplayName(c: TokenConfig): (r: string)
    ensures r != ""
    ensures c.name != "" ==> r == c.name
    ensures c.name == "" ==> r == "Token Name"
  {
    if c.name != "" then c.name else "Token Name"
  }

  /** The ticker under the heading: the symbol, or "SYMBOL" while it is empty. */
  function DisplaySymbol(c: TokenConfig): (r: string)
    ensures r != ""
    ensures c.symbol != "" ==> r == c.symbol
    ensures c.symbol == "" ==> r == "SYMBOL"
  {
    if c.symbol != "" then c.symbol else "SYMBOL"
  }

  /** The contract name of the snippet: the name with every `\s` character removed, or "MyToken". */
  function ContractName(c: TokenConfig): (r: string)
    ensures r != ""
    ensures forall i :: 0 <= i < |r| ==> !IsWhitespace(r[i])
    ensures r == "MyToken" || IsSubsequence(r, c.name)
    ensures (forall i :: 0 <= i < |c.name| ==> IsWhitespace(c.name[i])) ==> r == "MyToken"
    ensures c.name != "" && (forall i :: 0 <= i < |c.name| ==> !IsWhitespace(c.name[i])) ==> r == c.name
  {
    var stripped := RemoveAll(c.name, IsWhitespace);
    RemoveAllIsSubsequence(c.name, IsWhitespace);
    RemoveAllEmpty(c.name, IsWhitespace);
    RemoveAllFixedPoint(c.name, IsWhitespace);
    if stripped != "" then stripped else "MyToken"
  }

  /** The contract name keeps every non-whitespace character of the name, in order. */
  lemma ContractNameKeepsCharacters(c: TokenConfig)
    requires exists i :: 0 <= i < |c.name| && !IsWhitespace(c.name[i])
    ensures ContractName(c) == RemoveAll(c.name, IsWhitespace)
    ensures forall ch :: !IsWhitespace(ch) ==> multiset(ContractName(c))[ch] == multiset(c.name)[ch]
  {
    RemoveAllEmpty(c.name, IsWhitespace);
    RemoveAllCounts(c.name, IsWhitespace);
  }

  /** The inheritance list of the snippet: ERC20, then ERC20Burnable and Pausable when enabled. */
  function BaseContracts(c: TokenConfig): (r: string)
    ensures |r| == 5 + (if c.burnable then 15 else 0) + (if c.pausable then 10 else 0)
    ensures r[..5] == "ERC20"
    ensures c.burnable ==> r[5..20] == ", ERC20Burnable"
    ensures c.pausable ==> r[|r| - 10..] == ", Pausable"
  {
    "ERC20" + (if c.burnable then ", ERC20Burnable" else "") + (if c.pausable then ", Pausable" else "")
  }

  /**
   * The inheritance list always starts with ERC20 and tells the burnable and
   * pausable flags apart exactly; the mintable flag has no part in it.
   */
  lemma BaseContractsExact(c: TokenConfig, d: TokenConfig)
    ensures BaseContracts(c)[..5] == "ERC20"
    ensures BaseContracts(c) == BaseContracts(d) <==> c.burnable == d.burnable && c.pausable == d.pausable
  {
    var lc := 5 + (if c.burnable then 15 else 0) + (if c.pausable then 10 else 0);
    var ld := 5 + (if d.burnable then 15 else 0) + (if d.pausable then 10 else 0);
    assert |BaseContracts(c)| == lc;
    assert |BaseContracts(d)| == ld;
  }

  /**
   * The supply line: the literal "0" while the supply is empty, otherwise the
   * supply string, which the page formats with `Number(...).toLocaleString()`.
   */
  datatype SupplyShown = ZeroShown | Formatted(digits: string)

  function SupplyText(c: TokenConfig): (r: SupplyShown)
    ensures r.Formatted? <==> c.supply != ""
    ensures r.Formatted? ==> r.digits == c.supply
  {
    if c.supply != "" then Formatted(c.supply) else ZeroShown
  }

  /** What the token card shows. */
  datatype Card = Card(initial: char, name: string, symbol: string, supply: SupplyShown,
                       decimals: int, badges: seq<Badge>)

  /** What the snippet shows: `contract <name> is <bases> { // Total Supply, // Decimals }`. */
  datatype Snippet = Snippet(contractName: string, bases: string, supply: SupplyShown, decimals: int)

  /** The card: icon initial, heading and ticker with their fallbacks, supply line, decimals and badges. */
  function RenderCard(c: TokenConfig): (r: Card)
    ensures r.initial == IconInitial(c) && r.name == DisplayName(c) && r.symbol == DisplaySymbol(c)
    ensures r.supply == SupplyText(c)
    ensures r.name == (if c.name != "" then c.name else "Token Name")
    ensures r.symbol == (if c.symbol != "" then c.symbol else "SYMBOL")
    ensures r.supply.Formatted? <==> c.supply != ""
    ensures r.supply.Formatted? ==> r.supply.digits == c.supply
    ensures r.name != "" && r.symbol != ""
    ensures r.initial == if c.symbol != "" then r.symbol[0] else '?'
    ensures r.decimals == c.decimals
    ensures r.badges == Features(c)
    ensures |r.badges| == 3 && forall i :: 0 <= i < 3 ==> r.badges[i].active == FlagOf(c, r.badges[i].feature)
  {
    Card(IconInitial(c), DisplayName(c), DisplaySymbol(c), SupplyText(c), c.decimals, Features(c))
  }

  /** The snippet: contract name, inheritance list, supply comment and decimals comment. */
  function RenderSnippet(c: TokenConfig): (r: Snippet)
    ensures r.contractName == ContractName(c) && r.bases == BaseContracts(c) && r.supply == SupplyText(c)
    ensures (exists i :: 0 <= i < |c.name| && !IsWhitespace(c.name[i])) ==>
      r.contractName == RemoveAll(c.name, IsWhitespace)
    ensures (forall i :: 0 <= i < |c.name| ==> IsWhitespace(c.name[i])) ==> r.contractName == "MyToken"
    ensures r.contractName != "" && forall i :: 0 <= i < |r.contractName| ==> !IsWhitespace(r.contractName[i])
    ensures r.bases == "ERC20" + (if c.burnable then ", ERC20Burnable" else "") + (if c.pausable then ", Pausable" else "")
    ensures |r.bases| >= 5 && r.bases[..5] == "ERC20"
    ensures r.decimals == c.decimals
  {
    RemoveAllEmpty(c.name, IsWhitespace);
    Snippet(ContractName(c), BaseContracts(c), SupplyText(c), c.decimals)
  }

  /**
   * Card and snippet agree with each other and with the configuration: the
   * decimals unchanged in both, the same supply line, and a badge per flag.
   */
  lemma CardAndSnippetAgree(c: TokenConfig)
    ensures RenderCard(c).decimals == c.decimals == RenderSnippet(c).decimals
    ensures RenderCard(c).supply == RenderSnippet(c).supply
    ensures RenderCard(c).badges == Features(c)
    ensures RenderCard(c).badges[0].active == c.burnable
    ensures RenderCard(c).badges[1].active == c.mintable
    ensures RenderCard(c).badges[2].active == c.pausable
  {
  }

  /** A configuration produced by the form shows one of the four decimals and an all-digit supply. */
  lemma PreviewOfFormConfig(c: TokenConfig)
    requires FormInvariant(c)
    ensures RenderCard(c).decimals in DecimalsChoices
    ensures RenderCard(c).supply.Formatted? ==> AllDigits(RenderCard(c).supply.digits)
    ensures |RenderCard(c).symbol| <= MaxSymbolLength || RenderCard(c).symbol == "SYMBOL"
  {
  }
}
