/**
 * The application root: the fake contract address built after the simulated
 * deployment, and the state cells the root owns (the configuration,
 * `isDeploying`, `deployedAddress`, `showDeployed`) with the transitions
 * that change them.
 */
module App {
  import opened Text
  import opened Config
  import opened TokenForm

  /** The characters an address digit is drawn from. */
  const HexAlphabet: string := "0123456789abcdef"

  /** The number of hex characters after the `0x` prefix. */
  const AddressDigits := 40

  /** A sequence of indices into HexAlphabet: what `Math.floor(Math.random() * 16)` yields. */
  predicate IsNibbles(ns: seq<int>)
  {
    forall i :: 0 <= i < |ns| ==> 0 <= ns[i] < |HexAlphabet|
  }

  /** `Array.from(ns, n => HexAlphabet[n]).join('')`. */
  function HexString(ns: seq<int>): (r: string)
    requires IsNibbles(ns)
    ensures |r| == |ns|
    ensures forall i :: 0 <= i < |ns| ==> r[i] == HexAlphabet[ns[i]]
  {
    if ns == [] then "" else [HexAlphabet[ns[0]]] + HexString(ns[1..])
  }

  /** `0x` followed by exactly 40 lower-case hex characters. */
  predicate IsAddress(a: string)
  {
    |a| == 2 + AddressDigits && a[..2] == "0x" && forall i :: 2 <= i < |a| ==> a[i] in HexAlphabet
  }

  /** The address built from the 40 random draws. */
  function FakeAddress(ns: seq<int>): (a: string)
    requires |ns| == AddressDigits && IsNibbles(ns)
    ensures IsAddress(a)
    ensures |a| == 42
    ensures forall i :: 0 <= i < AddressDigits ==> a[2 + i] == HexAlphabet[ns[i]]
  {
    "0x" + HexString(ns)
  }

  /** No character occurs twice in the alphabet. */
  lemma HexAlphabetDistinct()
    ensures forall i, j :: 0 <= i < j < |HexAlphabet| ==> HexAlphabet[i] != HexAlphabet[j]
  {
  }

  /** The position of a character in the alphabet. */
  function HexValue(ch: char): (n: int)
    requires ch in HexAlphabet
    ensures 0 <= n < |HexAlphabet| && HexAlphabet[n] == ch
  {
    var i :| 0 <= i < |HexAlphabet| && HexAlphabet[i] == ch;
    i
  }

  /** The random draws an address was built from, read back from its digits. */
  function AddressNibbles(a: string): (ns: seq<int>)
    requires IsAddress(a)
    ensures |ns| == AddressDigits && IsNibbles(ns)
    ensures forall i :: 0 <= i < AddressDigits ==> HexAlphabet[ns[i]] == a[2 + i]
  {
    seq(AddressDigits, i requires 0 <= i < AddressDigits => HexValue(a[2 + i]))
  }

  /** Different draws give different addresses: the draws can be read back. */
  lemma FakeAddressRoundTrip(ns: seq<int>)
    requires |ns| == AddressDigits && IsNibbles(ns)
    ensures AddressNibbles(FakeAddress(ns)) == ns
  {
    HexAlphabetDistinct();
    var back := AddressNibbles(FakeAddress(ns));
    forall i | 0 <= i < AddressDigits ensures back[i] == ns[i] {
      assert HexAlphabet[back[i]] == HexAlphabet[ns[i]];
    }
  }

  /** Every well-formed address is the one some draws produce. */
  lemma FakeAddressOnto(a: string)
    requires IsAddress(a)
    ensures FakeAddress(AddressNibbles(a)) == a
  {
    var b := FakeAddress(AddressNibbles(a));
    assert b[..2] == "0x" == a[..2];
    forall i | 0 <= i < |a| ensures b[i] == a[i] {
      if i < 2 {
        assert b[i] == b[..2][i] && a[i] == a[..2][i];
      } else {
        assert b[2 + (i - 2)] == a[2 + (i - 2)];
      }
    }
  }

  /** What the confirmation modal is given while it is open. */
  datatype Modal = Modal(address: string, tokenName: string)

  /**
   * The state cells of the application root. `pending` counts the calls of
   * the deploy handler that are suspended at the 3-second wait and have not
   * resumed yet; the other fields are the root's `useState` cells.
   */
  class AppState {
    var config: TokenConfig
    var isDeploying: bool
    var showDeployed: bool
    var deployedAddress: string
    var pending: nat

    /**
     * Reachable states: at most one deployment in flight, flagged by
     * `isDeploying`; the configuration as the form keeps it; an address, once
     * set, well formed; the modal only ever open on such an address.
     */
    ghost predicate Valid()
      reads this
    {
      pending <= 1 &&
      (isDeploying <==> pending == 1) &&
      FormInvariant(config) &&
      (deployedAddress == "" || IsAddress(deployedAddress)) &&
      (showDeployed ==> IsAddress(deployedAddress))
    }

    /** The page as first rendered. */
    constructor ()
      ensures Valid()
      ensures config == DefaultConfig
      ensures !isDeploying && !showDeployed && deployedAddress == "" && pending == 0
    {
      config := DefaultConfig;
      isDeploying := false;
      showDeployed := false;
      deployedAddress := "";
      pending := 0;
      DefaultConfigInvariant();
    }

    /** A form edit (`setConfig` through `updateConfig`); allowed while a deployment runs. */
    method Edit(e: FormEvent)
      modifies this`config
      ensures config == Apply(old(config), e)
      ensures old(Valid()) ==> Valid()
    {
      if Valid() {
        ApplyPreservesInvariant(config, e);
      }
      config := Apply(config, e);
    }

    /**
     * `handleDeploy` up to its `await`: an ineligible configuration returns at
     * once; otherwise `isDeploying` is set and one more call is suspended.
     * There is no in-flight check here.
     */
    method HandleDeploy()
      modifies this`isDeploying, this`pending
      ensures IsValid(config) ==> isDeploying && pending == old(pending) + 1
      ensures !IsValid(config) ==> isDeploying == old(isDeploying) && pending == old(pending)
      ensures config == old(config) && showDeployed == old(showDeployed) && deployedAddress == old(deployedAddress)
      ensures old(Valid()) && !old(isDeploying) ==> Valid()
    {
      if config.name == "" || config.symbol == "" || config.supply == "" {
        return;
      }
      isDeploying := true;
      pending := pending + 1;
    }

    /** A click on the deploy button, which is disabled unless the configuration is valid and nothing is deploying. */
    method PressDeploy()
      modifies this`isDeploying, this`pending
      ensures DeployEnabled(config, old(isDeploying)) ==> isDeploying && pending == old(pending) + 1
      ensures !DeployEnabled(config, old(isDeploying)) ==> isDeploying == old(isDeploying) && pending == old(pending)
      ensures config == old(config) && showDeployed == old(showDeployed) && deployedAddress == old(deployedAddress)
      ensures old(Valid()) ==> Valid()
    {
      if DeployEnabled(config, isDeploying) {
        HandleDeploy();
      }
    }

    /**
     * `handleDeploy` after its `await`: the address is built from the 40
     * draws, stored, `isDeploying` cleared and the modal opened.
     */
    method CompleteDeploy(draws: seq<int>)
      requires pending > 0
      requires |draws| == AddressDigits && IsNibbles(draws)
      modifies this`deployedAddress, this`isDeploying, this`showDeployed, this`pending
      ensures deployedAddress == FakeAddress(draws)
      ensures !isDeploying && showDeployed
      ensures pending == old(pending) - 1
      ensures config == old(config)
      ensures old(Valid()) ==> Valid()
    {
      deployedAddress := FakeAddress(draws);
      isDeploying := false;
      showDeployed := true;
      pending := pending - 1;
    }

    /** The modal's `onClose`: only `showDeployed` is cleared. */
    method Close()
      modifies this`showDeployed
      ensures !showDeployed
      ensures config == old(config) && deployedAddress == old(deployedAddress)
      ensures isDeploying == old(isDeploying) && pending == old(pending)
      ensures old(Valid()) ==> Valid()
    {
      showDeployed := false;
    }

    /** The modal as rendered: present iff `showDeployed`, named after the current configuration. */
    function ModalView(): (m: Option<Modal>)
      reads this
      ensures m.Some? <==> showDeployed
      ensures m.Some? ==> m.value.address == deployedAddress && m.value.tokenName == config.name
    {
      if showDeployed then Some(Modal(deployedAddress, config.name)) else None
    }
  }

  datatype Option<T> = None | Some(value: T)

  /** A worked example, form part: a name, a symbol, a supply and decimals typed into the form. */
  method FillExampleForm(app: AppState)
    modifies app`config
    ensures app.config.name == "Test Coin" && app.config.symbol == "TEST" && app.config.supply == "123000"
    ensures IsValid(app.config)
  {
    ExampleSession(app.config);
    app.Edit(NameInput("Test Coin"));
    app.Edit(SymbolInput("test"));
    app.Edit(SupplyInput("abc123000"));
    app.Edit(DecimalsSelect(Standard));
  }

  /**
   * A worked example, end to end: fill in the form, deploy, press the
   * button again while deploying (nothing happens), let the wait elapse,
   * rename the token while the modal is open, then close the modal.
   */
  method ExampleDeployment(draws: seq<int>, rename: string) returns (shown: Option<Modal>, afterRename: Option<Modal>, closed: Option<Modal>)
    requires |draws| == AddressDigits && IsNibbles(draws)
    ensures shown == Some(Modal(FakeAddress(draws), "Test Coin"))
    ensures afterRename == Some(Modal(FakeAddress(draws), rename))
    ensures closed == None
  {
    var app := new AppState();
    FillExampleForm(app);
    app.PressDeploy();
    assert app.isDeploying && app.pending == 1;
    app.PressDeploy();
    assert app.pending == 1;
    app.CompleteDeploy(draws);
    shown := app.ModalView();
    app.Edit(NameInput(rename));
    afterRename := app.ModalView();
    app.Close();
    closed := app.ModalView();
  }
}
