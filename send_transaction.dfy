/** The send form of src/components/magic/cards/SendTransactionCard.tsx: the
    EVM recipient pattern, the effect that recomputes `disabled` and clears the
    error flags when a field changes, and the `sendTransaction` handler's
    transitions. The SDK and RPC calls are parameters: which call threw, or
    what it returned. */
module SendTransaction {
  import opened Js
  import opened Regex
  import TokenBalance

  const EvmHexDigits: nat := 40

  /** /^0x[a-fA-F0-9]{40}$/ */
  function EvmAddressPattern(): Re {
    Cat(Literal("0x"), Repeat(Class(HexDigit), EvmHexDigits))
  }

  predicate IsEvmRecipient(s: string) {
    Matches(EvmAddressPattern(), s)
  }

  /** The recipient test accepts exactly a lower-case '0x' followed by forty
      hexadecimal digits of either case. */
  lemma {:induction false} EvmRecipientShape(s: string)
    ensures IsEvmRecipient(s) <==> |s| == 42 && s[..2] == "0x" && AllIn(HexDigit, s[2..])
  {
    MatchesCorrect(EvmAddressPattern(), s);
    var hex := Repeat(Class(HexDigit), EvmHexDigits);
    if InLang(EvmAddressPattern(), s) {
      var i :| 0 <= i <= |s| && InLang(Literal("0x"), s[..i]) && InLang(hex, s[i..]);
      LiteralLang("0x", s[..i]);
      RepeatLang(HexDigit, EvmHexDigits, s[i..]);
      assert |s[..i]| == 2;
    }
    if |s| == 42 && s[..2] == "0x" && AllIn(HexDigit, s[2..]) {
      LiteralLang("0x", s[..2]);
      RepeatLang(HexDigit, EvmHexDigits, s[2..]);
      CatIntro(Literal("0x"), hex, s[..2], s[2..]);
      assert s[..2] + s[2..] == s;
    }
  }

  /** Forty hex digits, passed through the token list's '0x' normaliser, form an
      accepted recipient; an upper-case '0X' prefix never does. */
  lemma NormalisedHexIsRecipient(digits: string, other: string)
    requires |digits| == 40 && AllIn(HexDigit, digits)
    ensures IsEvmRecipient(TokenBalance.FormatEvmAddress(digits))
    ensures !IsEvmRecipient("0X" + other)
  {
    assert !InClass(HexDigit, 'x');
    assert InClass(HexDigit, digits[1]) && digits[..2][1] == digits[1];
    var r := TokenBalance.FormatEvmAddress(digits);
    assert r == "0x" + digits;
    assert r[..2] == "0x" && r[2..] == digits;
    EvmRecipientShape(r);
    EvmRecipientShape("0X" + other);
    if |"0X" + other| >= 2 {
      assert ("0X" + other)[1] == 'X';
    }
  }

  /** Which branch of the handler applies, read from the provider. */
  datatype Route = Route(isSolana: bool, hasConnection: bool, isEthereum: bool, hasMagic: bool)

  /** The Solana branch, by the first step that stops it: a step before signing
      throws (a `PublicKey` constructor, `getLatestBlockhash`, or building the
      transfer), the recipient is off the curve, no blockhash comes back, the
      signed transaction is sent (its signature), or signing or sending throws. */
  datatype SolanaOutcome = BuildThrew | OffCurve | NoBlockhash | Signature(signature: string) | SendThrew

  /** The Ethereum branch after the recipient test: the wei conversion
      `BigInt(Math.round(Number(amount) * 1e18))` throws a RangeError (the
      product is not finite, as for "Infinity" or "1e300"), or the
      eth_sendTransaction call returns its hash or throws. */
  datatype EthereumOutcome = ConversionThrew | TxHash(hash: string) | RequestThrew

  /** A transfer handed to the SDK, with the recipient as typed. */
  datatype Transfer = SolanaTransfer(to: string, amount: string) | EthereumTransfer(to: string, amount: string)

  /** The Solana branch applies; the Ethereum branch applies when it does not. */
  predicate SolanaRoute(r: Route) { r.isSolana && r.hasConnection }
  predicate EthereumRoute(r: Route) { !SolanaRoute(r) && r.isEthereum && r.hasMagic }

  class SendForm {
    var toAddress: string
    var amount: string
    var disabled: bool
    var toAddressError: bool
    var amountError: bool
    var transactionLoading: bool
    var hash: string
    /** The transfers submitted so far. */
    var submitted: seq<Transfer>

    /** The initial state: empty fields, so the form starts disabled. */
    constructor ()
      ensures toAddress == "" && amount == "" && disabled
      ensures !toAddressError && !amountError && !transactionLoading && hash == "" && submitted == []
    {
      toAddress, amount := "", "";
      disabled := true;
      toAddressError, amountError := false, false;
      transactionLoading := false;
      hash := "";
      submitted := [];
    }

    /** The send button's `disabled` attribute. */
    predicate ButtonDisabled()
      reads this
    {
      toAddress == "" || amount == "" || disabled
    }

    /** The effect on `[amount, toAddress]`. */
    method FieldsChanged()
      modifies this
      ensures disabled == (toAddress == "" || amount == "")
      ensures !toAddressError && !amountError
      ensures toAddress == old(toAddress) && amount == old(amount) && transactionLoading == old(transactionLoading)
      ensures hash == old(hash) && submitted == old(submitted)
      ensures ButtonDisabled() <==> toAddress == "" || amount == ""
    {
      disabled := toAddress == "" || amount == "";
      amountError := false;
      toAddressError := false;
    }

    /** Typing into the recipient field; the effect runs when the value changed. */
    method EditToAddress(v: string)
      modifies this
      ensures toAddress == v && amount == old(amount)
      ensures v != old(toAddress) ==> disabled == (v == "" || amount == "") && !toAddressError && !amountError
      ensures v == old(toAddress) ==>
        disabled == old(disabled) && toAddressError == old(toAddressError) && amountError == old(amountError)
      ensures transactionLoading == old(transactionLoading) && hash == old(hash) && submitted == old(submitted)
    {
      var changed := v != toAddress;
      toAddress := v;
      if changed {
        FieldsChanged();
      }
    }

    /** Typing into the amount field; the effect runs when the value changed. */
    method EditAmount(v: string)
      modifies this
      ensures amount == v && toAddress == old(toAddress)
      ensures v != old(amount) ==> disabled == (toAddress == "" || v == "") && !toAddressError && !amountError
      ensures v == old(amount) ==>
        disabled == old(disabled) && toAddressError == old(toAddressError) && amountError == old(amountError)
      ensures transactionLoading == old(transactionLoading) && hash == old(hash) && submitted == old(submitted)
    {
      var changed := v != amount;
      amount := v;
      if changed {
        FieldsChanged();
      }
    }

    /** The closing statements of both the try block and the catch block. */
    method Reset()
      modifies this
      ensures !transactionLoading && !disabled && toAddress == "" && amount == ""
      ensures toAddressError == old(toAddressError) && amountError == old(amountError)
      ensures hash == old(hash) && submitted == old(submitted)
    {
      transactionLoading := false;
      disabled := false;
      toAddress := "";
      amount := "";
    }

    /** A rejected recipient: loading ends, the form is re-enabled and flagged,
        and the fields are kept. */
    method RejectRecipient()
      modifies this
      ensures !transactionLoading && !disabled && toAddressError
      ensures toAddress == old(toAddress) && amount == old(amount) && amountError == old(amountError)
      ensures hash == old(hash) && submitted == old(submitted)
    {
      transactionLoading := false;
      disabled := false;
      toAddressError := true;
    }

    /** `sendTransaction`. `amountIsNumeric` stands for `!isNaN(Number(amount))`. */
    method Send(amountIsNumeric: bool, route: Route, solana: SolanaOutcome, ethereum: EthereumOutcome)
      modifies this
      // A non-numeric amount only raises the amount flag.
      ensures !amountIsNumeric ==>
        amountError && toAddress == old(toAddress) && amount == old(amount) && disabled == old(disabled)
        && toAddressError == old(toAddressError) && transactionLoading == old(transactionLoading)
        && hash == old(hash) && submitted == old(submitted)
      // A recipient rejected by either branch: flagged, nothing submitted, fields kept.
      ensures amountIsNumeric && ((SolanaRoute(route) && solana == OffCurve)
                                  || (EthereumRoute(route) && !IsEvmRecipient(old(toAddress)))) ==>
        toAddressError && !transactionLoading && !disabled && submitted == old(submitted)
        && toAddress == old(toAddress) && amount == old(amount) && hash == old(hash)
      // A missing blockhash returns from the try block with the form still busy.
      ensures amountIsNumeric && SolanaRoute(route) && solana == NoBlockhash ==>
        transactionLoading && disabled && submitted == old(submitted) && toAddressError == old(toAddressError)
        && toAddress == old(toAddress) && amount == old(amount) && hash == old(hash)
      // Every other path ends in the reset; it submits exactly when a branch reached its SDK call.
      ensures amountIsNumeric && !(SolanaRoute(route) && solana in {OffCurve, NoBlockhash})
              && !(EthereumRoute(route) && !IsEvmRecipient(old(toAddress))) ==>
        !transactionLoading && !disabled && toAddress == "" && amount == ""
        && toAddressError == old(toAddressError)
        && submitted == old(submitted) + Submission(route, solana, ethereum, old(toAddress), old(amount))
        && hash == (if SolanaRoute(route) && solana.Signature? then solana.signature
                    else if EthereumRoute(route) && ethereum.TxHash? then ethereum.hash
                    else old(hash))
      ensures amountIsNumeric ==> amountError == old(amountError)
    {
      if !amountIsNumeric {
        amountError := true;
        return;
      }
      disabled := true;
      transactionLoading := true;
      if SolanaRoute(route) {
        match solana
        case BuildThrew =>
          Reset();
        case OffCurve =>
          RejectRecipient();
        case NoBlockhash =>
          return;
        case Signature(signature) =>
          submitted := submitted + [SolanaTransfer(toAddress, amount)];
          hash := signature;
          Reset();
        case SendThrew =>
          submitted := submitted + [SolanaTransfer(toAddress, amount)];
          Reset();
      } else if route.isEthereum && route.hasMagic {
        if !IsEvmRecipient(toAddress) {
          RejectRecipient();
          return;
        }
        if ethereum.ConversionThrew? {
          Reset();
          return;
        }
        submitted := submitted + [EthereumTransfer(toAddress, amount)];
        if ethereum.TxHash? {
          hash := ethereum.hash;
        }
        Reset();
      } else {
        Reset();
      }
    }
  }

  /** The transfers a send that reaches the reset has submitted: one for a Solana
      send that got past the blockhash, one for an Ethereum send whose amount
      converted to wei, none otherwise. */
  function Submission(route: Route, solana: SolanaOutcome, ethereum: EthereumOutcome,
                      to: string, amount: string): (t: seq<Transfer>)
    ensures |t| <= 1
    ensures |t| == 1 <==> (SolanaRoute(route) && (solana.Signature? || solana.SendThrew?))
                          || (EthereumRoute(route) && !ethereum.ConversionThrew?)
    ensures |t| == 1 ==> t[0].to == to && t[0].amount == amount && (t[0].SolanaTransfer? <==> SolanaRoute(route))
  {
    if SolanaRoute(route) then
      (if solana.Signature? || solana.SendThrew? then [SolanaTransfer(to, amount)] else [])
    else if EthereumRoute(route) && !ethereum.ConversionThrew? then [EthereumTransfer(to, amount)]
    else []
  }

  /** A send on a network that is neither Solana nor Ethereum (Bitcoin, Polygon,
      Base) submits nothing yet still resets the form; after the reset the effect
      disables the button, because both fields are now empty. */
  method UnroutedSendResets(to: string, amount: string) returns (f: SendForm)
    requires to != "" && amount != ""
    ensures f.submitted == [] && f.toAddress == "" && f.amount == "" && !f.transactionLoading
    ensures f.ButtonDisabled() && f.disabled
  {
    f := new SendForm();
    f.EditToAddress(to);
    f.EditAmount(amount);
    assert !f.ButtonDisabled();
    f.Send(true, Route(false, false, false, false), BuildThrew, RequestThrew);
    assert !f.disabled;
    f.FieldsChanged();
  }

  /** An Ethereum send to a recipient with an upper-case '0X' prefix is refused
      before any request: the flag is set and the typed values stay. */
  method UpperCasePrefixRefused(digits: string, amount: string) returns (f: SendForm)
    requires amount != ""
    ensures f.toAddressError && f.submitted == [] && f.toAddress == "0X" + digits && f.amount == amount
  {
    f := new SendForm();
    f.EditToAddress("0X" + digits);
    f.EditAmount(amount);
    NormalisedHexIsRecipient(seq(40, _ => 'a'), digits);
    f.Send(true, Route(false, false, true, true), BuildThrew, RequestThrew);
  }

  /** An Ethereum send of a numeric amount too large for the wei conversion
      ("Infinity", "1e300") to a valid recipient: the RangeError lands in the
      catch block, which clears the form, and no transfer is submitted. */
  method UnconvertibleAmountNotSent(to: string, amount: string) returns (f: SendForm)
    requires IsEvmRecipient(to) && amount != ""
    ensures f.submitted == [] && f.hash == "" && !f.toAddressError
    ensures f.toAddress == "" && f.amount == "" && !f.transactionLoading
  {
    EvmRecipientShape(to);
    f := new SendForm();
    f.EditToAddress(to);
    f.EditAmount(amount);
    f.Send(true, Route(false, false, true, true), BuildThrew, ConversionThrew);
  }
}
