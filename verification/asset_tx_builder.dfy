/** The asset-aware transaction builder (`AssetTxBuilder`): it drives one
    (sub)transaction that issues, transfers or burns units of a secondary
    asset, on top of the base-asset builder. The base builder's own steps are
    abstract here: their results arrive as parameters and they leave the
    asset-specific fields alone. */
module AssetTx {
  import opened WalletTypes
  import opened Ecc

  type TxID = nat
  type SubTxID = nat

  /** `AssetID`: an opaque identifier; zero denotes the base asset. */
  type AssetID = nat

  /** `AssetCommand` as read back from the parameter store; `Unknown` stands
      for any value outside the enumeration. */
  datatype AssetCommand = Zero | Issue | Transfer | Burn | Unknown(code: int)

  /** The failure reasons a `TransactionFailedException` carries in this builder. */
  datatype TxFailureReason = InvalidTransaction | FailedToGetParameter

  datatype KeyType = Regular | Change

  /** `Key::ID`: a key derivation index and key type. */
  datatype KeyID = KeyID(idx: U64, keyType: KeyType)

  /** `Coin::ID` (`Key::IDV`): a key identifier together with the coin's value. */
  datatype CoinID = CoinID(key: KeyID, value: Amount)

  /** An element of `m_InputCoins` / `m_OutputCoins`: a coin identifier tagged
      with the asset it carries. */
  datatype AssetCoin = AssetCoin(idv: CoinID, assetID: AssetID)

  /** A coin as handed to the wallet database. */
  datatype Coin = Coin(id: CoinID, assetID: AssetID, createTxId: Option<TxID>)

  datatype Input = Input(commitment: CompressedPoint)

  datatype Output = Output(commitment: CompressedPoint, assetID: AssetID)

  datatype HeightRange = HeightRange(min: U64, max: U64)

  /** `MaxHeight`: the largest 64-bit height. */
  const MaxHeight: U64 := U64Limit - 1

  /** `TxKernel`; `assetEmission` is the signed 64-bit emission amount, and
      `signed` whether `TxKernel::Sign` has put a signature in it. */
  datatype TxKernel = TxKernel(
    fee: Amount,
    height: HeightRange,
    commitment: CompressedPoint,
    assetEmission: int,
    signed: bool)

  /** A freshly allocated `TxKernel`. */
  const DefaultKernel: TxKernel := TxKernel(0, HeightRange(0, MaxHeight), RawXY(0, 0), 0, false)

  /** The message `TxKernel::get_Hash` computes, over the kernel and an optional peer lock image. */
  datatype KernelHash = KernelHash(kernel: TxKernel, lockImage: Option<nat>)

  /** The result of the key keeper's `SignSync`, recorded as the arguments it was given. */
  datatype PartialSignature = PartialSignature(
    inputCoins: seq<AssetCoin>,
    outputCoins: seq<AssetCoin>,
    offset: Scalar,
    nonceSlot: nat,
    message: KernelHash,
    publicNonce: Point,
    publicExcess: Point)

  /** A `Transaction` as assembled, before `Normalize`. */
  datatype Transaction = Transaction(kernels: seq<TxKernel>, offset: Scalar, inputs: seq<Input>, outputs: seq<Output>)

  /** The entries of the parameter store this builder reads or writes, for its sub-transaction. */
  datatype Parameters = Parameters(
    assetAmountList: Option<seq<Amount>>,
    assetCommand: Option<AssetCommand>,
    assetID: Option<AssetID>,
    assetKIDIndex: Option<U64>,
    outputCoins: Option<seq<AssetCoin>>)

  /** What the base builder's `SelectInputs` produces when it succeeds. */
  datatype BaseSelection = BaseSelection(inputCoins: seq<AssetCoin>, change: Amount)

  /** The transaction a builder belongs to (`m_Tx`), with the collaborators the
      builder reaches through it: the parameter store, the wallet database and
      the key derivation functions. */
  class BaseTransaction {
    const txID: TxID
    /** The parameter store, seen through the builder's sub-transaction id. */
    var params: Parameters
    /** The coins handed to the wallet database's `storeCoin`, in order. */
    var storedCoins: seq<Coin>
    /** The master key derivation function (`get_MasterKdf()->DeriveKey`). */
    const deriveKey: KeyID -> Scalar
    /** `SwitchCommitment(&assetID).Create` with the coin's child key derivation function. */
    const switchBlind: (AssetID, CoinID) -> Scalar
    /** `TxKernel::Sign`: the kernel as it is after signing with a key. What it
        writes besides the signature (the commitment, say) is left open. */
    const signKernel: (TxKernel, Scalar) -> TxKernel

    constructor (txID: TxID, params: Parameters, deriveKey: KeyID -> Scalar, switchBlind: (AssetID, CoinID) -> Scalar,
                 signKernel: (TxKernel, Scalar) -> TxKernel)
      ensures this.txID == txID && this.params == params && storedCoins == []
      ensures this.deriveKey == deriveKey && this.switchBlind == switchBlind && this.signKernel == signKernel
    {
      this.signKernel := signKernel;
      this.txID := txID;
      this.params := params;
      this.storedCoins := [];
      this.deriveKey := deriveKey;
      this.switchBlind := switchBlind;
    }
  }

  // ---------------------------------------------------------------------
  // Specification functions
  // ---------------------------------------------------------------------

  /** The identifier of a newly generated coin: a regular key, or a change key. */
  function NewCoinID(amount: Amount, isChange: bool, idx: U64): CoinID
  {
    CoinID(KeyID(idx, if isChange then Change else Regular), amount)
  }

  /** The asset coins generated, in order, for a list of amounts. */
  function AssetCoins(amounts: seq<Amount>, idxs: seq<U64>, isChange: bool, assetID: AssetID): (r: seq<AssetCoin>)
    requires |idxs| == |amounts|
    ensures |r| == |amounts|
  {
    if amounts == [] then []
    else
      var n := |amounts| - 1;
      AssetCoins(amounts[..n], idxs[..n], isChange, assetID) + [AssetCoin(NewCoinID(amounts[n], isChange, idxs[n]), assetID)]
  }

  /** The k-th generated coin carries the k-th amount, the asset id, and a
      change key exactly when the list was generated as change. */
  lemma {:induction false} AssetCoinsAt(amounts: seq<Amount>, idxs: seq<U64>, isChange: bool, assetID: AssetID, k: nat)
    requires |idxs| == |amounts| && k < |amounts|
    ensures AssetCoins(amounts, idxs, isChange, assetID)[k].idv.value == amounts[k]
    ensures AssetCoins(amounts, idxs, isChange, assetID)[k].assetID == assetID
    ensures AssetCoins(amounts, idxs, isChange, assetID)[k].idv.key == KeyID(idxs[k], if isChange then Change else Regular)
  {
    var n := |amounts| - 1;
    if k < n {
      AssetCoinsAt(amounts[..n], idxs[..n], isChange, assetID, k);
    }
  }

  /** The coin the wallet database receives for a generated asset coin. */
  function StoredCoin(c: AssetCoin, txID: TxID): Coin
  {
    Coin(c.idv, c.assetID, Some(txID))
  }

  function StoredCoins(cs: seq<AssetCoin>, txID: TxID): (r: seq<Coin>)
    ensures |r| == |cs|
  {
    if cs == [] then [] else StoredCoins(cs[..|cs| - 1], txID) + [StoredCoin(cs[|cs| - 1], txID)]
  }

  /** The issued blinding factor after the coins `coins` were generated one by
      one, starting from `bf`: under Issue, a coin sets it while it is zero. */
  function BlindAfter(bf: Scalar, cmd: AssetCommand, coins: seq<AssetCoin>, switchBlind: (AssetID, CoinID) -> Scalar): Scalar
  {
    if coins == [] then bf
    else
      var b := BlindAfter(bf, cmd, coins[..|coins| - 1], switchBlind);
      var c := coins[|coins| - 1];
      if cmd == Issue && b == 0 then switchBlind(c.assetID, c.idv) else b
  }

  /** The values of the base-asset coins, in order. */
  function BaseValues(coins: seq<AssetCoin>): seq<Amount>
  {
    if coins == [] then []
    else
      var c := coins[|coins| - 1];
      BaseValues(coins[..|coins| - 1]) + (if c.assetID == 0 then [c.idv.value] else [])
  }

  lemma AssetCoinsStep(amounts: seq<Amount>, idxs: seq<U64>, i: nat, isChange: bool, assetID: AssetID)
    requires |idxs| == |amounts| && i < |amounts|
    ensures AssetCoins(amounts[..i + 1], idxs[..i + 1], isChange, assetID)
         == AssetCoins(amounts[..i], idxs[..i], isChange, assetID) + [AssetCoin(NewCoinID(amounts[i], isChange, idxs[i]), assetID)]
  {
    assert amounts[..i + 1][..i] == amounts[..i];
    assert idxs[..i + 1][..i] == idxs[..i];
  }

  lemma AppendStep(cs: seq<AssetCoin>, c: AssetCoin, bf: Scalar, cmd: AssetCommand, switchBlind: (AssetID, CoinID) -> Scalar, txID: TxID)
    ensures StoredCoins(cs + [c], txID) == StoredCoins(cs, txID) + [StoredCoin(c, txID)]
    ensures var b := BlindAfter(bf, cmd, cs, switchBlind);
            BlindAfter(bf, cmd, cs + [c], switchBlind) == if cmd == Issue && b == 0 then switchBlind(c.assetID, c.idv) else b
  {
    assert (cs + [c])[..|cs|] == cs;
  }

  /** The sum of the input commitments that import. */
  function InputCommitmentSum(inputs: seq<Input>): Point
  {
    if inputs == [] then Identity
    else
      var rest := InputCommitmentSum(inputs[..|inputs| - 1]);
      match Import(inputs[|inputs| - 1].commitment)
      case Some(p) => Add(rest, p)
      case None => rest
  }

  /** The sum of the base-asset output commitments that import. */
  function BaseOutputCommitmentSum(outputs: seq<Output>): Point
  {
    if outputs == [] then Identity
    else
      var rest := BaseOutputCommitmentSum(outputs[..|outputs| - 1]);
      var o := outputs[|outputs| - 1];
      if o.assetID != 0 then rest
      else
        match Import(o.commitment)
        case Some(p) => Add(rest, p)
        case None => rest
  }

  /** The public excess without the Issue adjustment, in the order the source
      evaluates it: −(offset·G + Σ base outputs) + Σ inputs + (−(Σ base input
      values)·H + (Σ base output values)·H), where each value sum is the
      wrapping 64-bit fold of the source. `ExcessFormula` gives it coordinate
      by coordinate. */
  function ExcessOf(inputCoins: seq<AssetCoin>, outputCoins: seq<AssetCoin>, inputs: seq<Input>, outputs: seq<Output>, offset: Scalar): Point
  {
    var publicAmount := Add(Neg(MulH(AccumulateU64(BaseValues(inputCoins)))), MulH(AccumulateU64(BaseValues(outputCoins))));
    Add(Add(Neg(Add(MulG(offset), BaseOutputCommitmentSum(outputs))), InputCommitmentSum(inputs)), publicAmount)
  }

  /** An emission kernel needs creating: the command is Issue and the wrapped total is positive. */
  predicate EmitsAsset(cmd: AssetCommand, amounts: seq<Amount>)
  {
    cmd == Issue && AccumulateU64(amounts) > 0
  }

  /** The emission kernel before it is signed: tagged with the asset id in the
      X coordinate of its commitment, carrying the total as signed emission. */
  function UnsignedEmissionKernel(assetID: AssetID, amount: Amount): (k: TxKernel)
    ensures k.commitment == RawXY(assetID, 0) && !k.signed
    ensures amount < I64Limit <==> k.assetEmission == amount
    ensures k.assetEmission < 0 <==> amount >= I64Limit
  {
    DefaultKernel.(assetEmission := ToSigned64(amount), commitment := RawXY(assetID, 0))
  }

  /** The transaction `CreateTransaction` assembles from the builder's parts. */
  function Assemble(emission: Option<TxKernel>, kernel: TxKernel, offset: Scalar, peerOffset: Scalar,
                    inputs: seq<Input>, peerInputs: seq<Input>, outputs: seq<Output>, peerOutputs: seq<Output>): (t: Transaction)
    ensures emission.None? ==> t.kernels == [kernel]
    ensures emission.Some? ==> t.kernels == [emission.value, kernel]
    ensures t.offset == offset + peerOffset
    ensures t.inputs == inputs + peerInputs && t.outputs == outputs + peerOutputs
  {
    Transaction((if emission.Some? then [emission.value] else []) + [kernel], offset + peerOffset, inputs + peerInputs, outputs + peerOutputs)
  }

  /** The first check of `SelectInputs` after base selection: a present, non-zero
      asset id parameter and one of the three asset commands. */
  function ValidateAssetRequest(assetIDParam: Option<AssetID>, cmd: AssetCommand): (r: Outcome<TxFailureReason>)
    ensures r == Pass <==> assetIDParam.Some? && assetIDParam.value != 0 && (cmd == Issue || cmd == Transfer || cmd == Burn)
    ensures assetIDParam.None? ==> r == Fail(FailedToGetParameter)
    ensures assetIDParam.Some? && r.Fail? ==> r.error == InvalidTransaction
  {
    match assetIDParam
    case None => Fail(FailedToGetParameter)
    case Some(id) =>
      if id == 0 then Fail(InvalidTransaction)
      else
        match cmd
        case Issue => Pass
        case Transfer => Pass
        case Burn => Pass
        case _ => Fail(InvalidTransaction)
  }

  /** The asset amount list the constructor settles on: the argument, or the
      stored parameter when the argument is empty. */
  function InitialAmountList(assetAmountList: seq<Amount>, params: Parameters): (r: seq<Amount>)
    ensures assetAmountList != [] ==> r == assetAmountList
    ensures assetAmountList == [] && params.assetAmountList.Some? ==> r == params.assetAmountList.value
    ensures assetAmountList == [] && params.assetAmountList.None? ==> r == []
  {
    if assetAmountList == [] then params.assetAmountList.GetOr([]) else assetAmountList
  }

  /** The loop of `GetPublicExcess` that totals the values of base-asset
      coins in a 64-bit accumulator. */
  method AccumulateBaseValues(coins: seq<AssetCoin>) returns (amount: Amount)
    ensures amount == AccumulateU64(BaseValues(coins))
    ensures amount == Sum(BaseValues(coins)) % U64Limit
  {
    amount := 0;
    var i := 0;
    while i < |coins|
      invariant 0 <= i <= |coins|
      invariant amount == AccumulateU64(BaseValues(coins[..i]))
    {
      assert coins[..i + 1][..i] == coins[..i];
      assert BaseValues(coins[..i + 1]) == BaseValues(coins[..i]) + (if coins[i].assetID == 0 then [coins[i].idv.value] else []);
      if coins[i].assetID == 0 {
        AccumulateAppend(BaseValues(coins[..i]), coins[i].idv.value);
        amount := (amount + coins[i].idv.value) % U64Limit;
        assert amount == AccumulateU64(BaseValues(coins[..i + 1]));
      } else {
        assert BaseValues(coins[..i + 1]) == BaseValues(coins[..i]);
      }
      i := i + 1;
    }
    assert coins[..i] == coins;
    AccumulateIsSumMod(BaseValues(coins));
  }

  /** The loop of `GetPublicExcess` that adds each base-asset output
      commitment that imports. */
  method AddBaseOutputCommitments(start: Point, outputs: seq<Output>) returns (p: Point)
    ensures p == Add(start, BaseOutputCommitmentSum(outputs))
  {
    p := start;
    var i := 0;
    while i < |outputs|
      invariant 0 <= i <= |outputs|
      invariant p == Add(start, BaseOutputCommitmentSum(outputs[..i]))
    {
      assert outputs[..i + 1][..i] == outputs[..i];
      if outputs[i].assetID == 0 {
        var c := Import(outputs[i].commitment);
        if c.Some? {
          p := Add(p, c.value);
        }
      }
      i := i + 1;
    }
    assert outputs[..i] == outputs;
  }

  /** The loop of `GetPublicExcess` that adds each input commitment that imports. */
  method AddInputCommitments(start: Point, inputs: seq<Input>) returns (p: Point)
    ensures p == Add(start, InputCommitmentSum(inputs))
  {
    p := start;
    var i := 0;
    while i < |inputs|
      invariant 0 <= i <= |inputs|
      invariant p == Add(start, InputCommitmentSum(inputs[..i]))
    {
      assert inputs[..i + 1][..i] == inputs[..i];
      var c := Import(inputs[i].commitment);
      if c.Some? {
        p := Add(p, c.value);
      }
      i := i + 1;
    }
    assert inputs[..i] == inputs;
  }


  // ---------------------------------------------------------------------
  // Properties of the specification functions
  // ---------------------------------------------------------------------

  /** Every coin handed to the wallet database records the transaction that created it. */
  lemma {:induction false} StoredCoinsAt(cs: seq<AssetCoin>, txID: TxID, k: nat)
    requires k < |cs|
    ensures StoredCoins(cs, txID)[k] == Coin(cs[k].idv, cs[k].assetID, Some(txID))
  {
    if k < |cs| - 1 {
      StoredCoinsAt(cs[..|cs| - 1], txID, k);
    }
  }

  /** Once non-zero, or outside Issue, the issued blinding factor is never reassigned. */
  lemma {:induction false} BlindKept(bf: Scalar, cmd: AssetCommand, coins: seq<AssetCoin>, switchBlind: (AssetID, CoinID) -> Scalar)
    requires bf != 0 || cmd != Issue
    ensures BlindAfter(bf, cmd, coins, switchBlind) == bf
  {
    if coins != [] {
      BlindKept(bf, cmd, coins[..|coins| - 1], switchBlind);
    }
  }

  /** Under Issue, starting from zero, the first coin whose switch blinding is
      non-zero fixes the issued blinding factor for good. */
  lemma {:induction false} BlindFromFirstCoin(cmd: AssetCommand, coins: seq<AssetCoin>, switchBlind: (AssetID, CoinID) -> Scalar)
    requires cmd == Issue && coins != []
    requires switchBlind(coins[0].assetID, coins[0].idv) != 0
    ensures BlindAfter(0, cmd, coins, switchBlind) == switchBlind(coins[0].assetID, coins[0].idv)
  {
    if |coins| > 1 {
      var p := coins[..|coins| - 1];
      assert p[0] == coins[0];
      BlindFromFirstCoin(cmd, p, switchBlind);
    }
  }

  lemma {:induction false} BaseValuesConcat(a: seq<AssetCoin>, b: seq<AssetCoin>)
    ensures BaseValues(a + b) == BaseValues(a) + BaseValues(b)
    decreases |b|
  {
    if b == [] {
      assert a + b == a;
    } else {
      var b' := b[..|b| - 1];
      assert (a + b)[..|a + b| - 1] == a + b';
      BaseValuesConcat(a, b');
    }
  }

  lemma {:induction false} BaseOutputSumConcat(a: seq<Output>, b: seq<Output>)
    ensures BaseOutputCommitmentSum(a + b) == Add(BaseOutputCommitmentSum(a), BaseOutputCommitmentSum(b))
    decreases |b|
  {
    if b == [] {
      assert a + b == a;
    } else {
      var b' := b[..|b| - 1];
      assert (a + b)[..|a + b| - 1] == a + b';
      BaseOutputSumConcat(a, b');
    }
  }

  /** The excess does not see an asset coin among the output coins, nor an
      asset output among the outputs, wherever they stand. */
  lemma ExcessIgnoresAssetOutputs(inputCoins: seq<AssetCoin>, outputCoins: seq<AssetCoin>, inputs: seq<Input>, outputs: seq<Output>,
                                  offset: Scalar, c: AssetCoin, k: nat, o: Output, j: nat)
    requires c.assetID != 0 && o.assetID != 0
    requires k <= |outputCoins| && j <= |outputs|
    ensures ExcessOf(inputCoins, outputCoins[..k] + [c] + outputCoins[k..], inputs, outputs[..j] + [o] + outputs[j..], offset)
         == ExcessOf(inputCoins, outputCoins, inputs, outputs, offset)
  {
    var ca, cb := outputCoins[..k], outputCoins[k..];
    assert outputCoins == ca + cb;
    assert BaseValues([c]) == [] by {
      assert [c][..0] == [];
    }
    calc {
      BaseValues(ca + [c] + cb);
      { BaseValuesConcat(ca + [c], cb); }
      BaseValues(ca + [c]) + BaseValues(cb);
      { BaseValuesConcat(ca, [c]); }
      BaseValues(ca) + BaseValues([c]) + BaseValues(cb);
      BaseValues(ca) + BaseValues(cb);
      { BaseValuesConcat(ca, cb); }
      BaseValues(outputCoins);
    }
    var oa, ob := outputs[..j], outputs[j..];
    assert outputs == oa + ob;
    assert BaseOutputCommitmentSum([o]) == Identity by {
      assert [o][..0] == [];
    }
    calc {
      BaseOutputCommitmentSum(oa + [o] + ob);
      { BaseOutputSumConcat(oa + [o], ob); }
      Add(BaseOutputCommitmentSum(oa + [o]), BaseOutputCommitmentSum(ob));
      { BaseOutputSumConcat(oa, [o]); }
      Add(Add(BaseOutputCommitmentSum(oa), Identity), BaseOutputCommitmentSum(ob));
      Add(BaseOutputCommitmentSum(oa), BaseOutputCommitmentSum(ob));
      { BaseOutputSumConcat(oa, ob); }
      BaseOutputCommitmentSum(outputs);
    }
  }

  /** With no 64-bit overflow the value sums are exact:
      excess = Σ inputs − Σ base outputs − offset·G − (Σ base input values − Σ base output values)·H. */
  lemma ExcessFormula(inputCoins: seq<AssetCoin>, outputCoins: seq<AssetCoin>, inputs: seq<Input>, outputs: seq<Output>, offset: Scalar)
    requires Sum(BaseValues(inputCoins)) < U64Limit && Sum(BaseValues(outputCoins)) < U64Limit
    ensures ExcessOf(inputCoins, outputCoins, inputs, outputs, offset).g
         == InputCommitmentSum(inputs).g - BaseOutputCommitmentSum(outputs).g - offset
    ensures ExcessOf(inputCoins, outputCoins, inputs, outputs, offset).h
         == InputCommitmentSum(inputs).h - BaseOutputCommitmentSum(outputs).h - (Sum(BaseValues(inputCoins)) - Sum(BaseValues(outputCoins)))
  {
    AccumulateExact(BaseValues(inputCoins));
    AccumulateExact(BaseValues(outputCoins));
  }

  function SumScalars(xs: seq<Scalar>): int
  {
    if xs == [] then 0 else SumScalars(xs[..|xs| - 1]) + xs[|xs| - 1]
  }

  /** The total blinding of the base-asset coins among `coins`. */
  function BaseBlindSum(coins: seq<AssetCoin>, blinds: seq<Scalar>): int
    requires |blinds| == |coins|
  {
    if coins == [] then 0
    else
      var n := |coins| - 1;
      BaseBlindSum(coins[..n], blinds[..n]) + (if coins[n].assetID == 0 then blinds[n] else 0)
  }

  /** Each input is the base-asset commitment `blind·G + value·H` of the coin at the same position. */
  ghost predicate InputsOpenTo(inputs: seq<Input>, coins: seq<AssetCoin>, blinds: seq<Scalar>)
  {
    && |inputs| == |coins| == |blinds|
    && forall i :: 0 <= i < |inputs| ==>
         coins[i].assetID == 0 && inputs[i].commitment == Encoded(Commit(blinds[i], coins[i].idv.value))
  }

  /** Each output carries the asset of the coin at the same position and, for
      the base asset, is that coin's commitment. */
  ghost predicate OutputsOpenTo(outputs: seq<Output>, coins: seq<AssetCoin>, blinds: seq<Scalar>)
  {
    && |outputs| == |coins| == |blinds|
    && forall i :: 0 <= i < |outputs| ==>
         outputs[i].assetID == coins[i].assetID
         && (coins[i].assetID == 0 ==> outputs[i].commitment == Encoded(Commit(blinds[i], coins[i].idv.value)))
  }

  lemma {:induction false} InputSumOpens(inputs: seq<Input>, coins: seq<AssetCoin>, blinds: seq<Scalar>)
    requires InputsOpenTo(inputs, coins, blinds)
    ensures InputCommitmentSum(inputs) == Point(SumScalars(blinds), Sum(BaseValues(coins)))
  {
    if inputs != [] {
      var n := |inputs| - 1;
      assert InputsOpenTo(inputs[..n], coins[..n], blinds[..n]) by {
        forall i | 0 <= i < n
          ensures coins[..n][i].assetID == 0 && inputs[..n][i].commitment == Encoded(Commit(blinds[..n][i], coins[..n][i].idv.value))
        {
          assert coins[..n][i] == coins[i] && inputs[..n][i] == inputs[i] && blinds[..n][i] == blinds[i];
        }
      }
      InputSumOpens(inputs[..n], coins[..n], blinds[..n]);
    }
  }

  lemma {:induction false} OutputSumOpens(outputs: seq<Output>, coins: seq<AssetCoin>, blinds: seq<Scalar>)
    requires OutputsOpenTo(outputs, coins, blinds)
    ensures BaseOutputCommitmentSum(outputs) == Point(BaseBlindSum(coins, blinds), Sum(BaseValues(coins)))
  {
    if outputs != [] {
      var n := |outputs| - 1;
      assert OutputsOpenTo(outputs[..n], coins[..n], blinds[..n]) by {
        forall i | 0 <= i < n
          ensures outputs[..n][i].assetID == coins[..n][i].assetID
               && (coins[..n][i].assetID == 0 ==> outputs[..n][i].commitment == Encoded(Commit(blinds[..n][i], coins[..n][i].idv.value)))
        {
          assert coins[..n][i] == coins[i] && outputs[..n][i] == outputs[i] && blinds[..n][i] == blinds[i];
        }
      }
      OutputSumOpens(outputs[..n], coins[..n], blinds[..n]);
      var tail := if coins[n].assetID == 0 then [coins[n].idv.value] else [];
      assert BaseValues(coins) == BaseValues(coins[..n]) + tail;
      SumConcat(BaseValues(coins[..n]), tail);
      assert Sum(tail) == if coins[n].assetID == 0 then coins[n].idv.value else 0 by {
        if tail != [] { assert tail[..0] == []; }
      }
    }
  }

  /** When every input and base-asset output is the commitment of its coin and
      the value sums do not overflow, the values cancel: the public excess is a
      pure G-point, the public key of the net blinding minus the offset. */
  lemma ExcessCarriesNoValue(inputCoins: seq<AssetCoin>, outputCoins: seq<AssetCoin>, inputs: seq<Input>, outputs: seq<Output>,
                             offset: Scalar, inBlinds: seq<Scalar>, outBlinds: seq<Scalar>)
    requires InputsOpenTo(inputs, inputCoins, inBlinds) && OutputsOpenTo(outputs, outputCoins, outBlinds)
    requires Sum(BaseValues(inputCoins)) < U64Limit && Sum(BaseValues(outputCoins)) < U64Limit
    ensures ExcessOf(inputCoins, outputCoins, inputs, outputs, offset)
         == MulG(SumScalars(inBlinds) - BaseBlindSum(outputCoins, outBlinds) - offset)
  {
    InputSumOpens(inputs, inputCoins, inBlinds);
    OutputSumOpens(outputs, outputCoins, outBlinds);
    AccumulateExact(BaseValues(inputCoins));
    AccumulateExact(BaseValues(outputCoins));
  }

  /** With no 64-bit overflow, an emission kernel is made exactly for Issue
      with at least one positive amount. */
  lemma {:induction false} EmitsAssetIff(cmd: AssetCommand, amounts: seq<Amount>)
    requires Sum(amounts) < U64Limit
    ensures EmitsAsset(cmd, amounts) <==> cmd == Issue && exists i :: 0 <= i < |amounts| && amounts[i] > 0
  {
    SumPositiveIff(amounts);
    AccumulateExact(amounts);
  }

  // ---------------------------------------------------------------------
  // The builder
  // ---------------------------------------------------------------------

  class AssetTxBuilder {
    const tx: BaseTransaction
    const subTxID: SubTxID

    // Base builder state used by the asset steps.
    var fee: Amount
    var change: Amount
    var inputCoins: seq<AssetCoin>
    var outputCoins: seq<AssetCoin>
    var offset: Scalar
    var peerOffset: Scalar
    var inputs: seq<Input>
    var outputs: seq<Output>
    var peerInputs: seq<Input>
    var peerOutputs: seq<Output>
    var kernel: Option<TxKernel>
    var publicNonce: Point
    var peerPublicNonce: Point
    var peerPublicExcess: Point
    var peerLockImage: Option<nat>
    var nonceSlot: nat
    var message: Option<KernelHash>
    var partialSignature: Option<PartialSignature>

    // Asset-specific state.
    var assetAmountList: seq<Amount>
    var assetID: AssetID
    var assetChange: Amount
    var assetCommand: AssetCommand
    var issuedBlindingFactor: Scalar
    var emissionKernel: Option<TxKernel>

    /** The state of a builder that has done no step yet. */
    predicate Fresh()
      reads this
    {
      && change == 0 && inputCoins == [] && outputCoins == [] && offset == 0 && peerOffset == 0
      && inputs == [] && outputs == [] && peerInputs == [] && peerOutputs == []
      && kernel.None? && message.None? && partialSignature.None?
      && assetChange == 0 && issuedBlindingFactor == 0 && emissionKernel.None?
    }

    constructor (tx: BaseTransaction, subTxID: SubTxID, fee: Amount, assetAmountList: seq<Amount>, assetID: AssetID, assetCommand: AssetCommand)
      ensures this.tx == tx && this.subTxID == subTxID && this.fee == fee
      ensures this.assetAmountList == assetAmountList && this.assetID == assetID && this.assetCommand == assetCommand
      ensures Fresh()
    {
      this.tx := tx;
      this.subTxID := subTxID;
      this.fee := fee;
      this.assetAmountList := assetAmountList;
      this.assetID := assetID;
      this.assetCommand := assetCommand;
      change, inputCoins, outputCoins, offset, peerOffset := 0, [], [], 0, 0;
      inputs, outputs, peerInputs, peerOutputs := [], [], [], [];
      kernel, message, partialSignature := None, None, None;
      publicNonce, peerPublicNonce, peerPublicExcess := Identity, Identity, Identity;
      peerLockImage, nonceSlot := None, 0;
      assetChange, issuedBlindingFactor, emissionKernel := 0, 0, None;
    }

    /** Construction: reads the stored amount list when none is given, then the
        mandatory asset command, failing when that parameter is missing. */
    static method Create(tx: BaseTransaction, subTxID: SubTxID, fee: Amount, assetAmountList: seq<Amount>, assetID: AssetID)
      returns (r: Result<AssetTxBuilder, TxFailureReason>)
      ensures r.Failure? <==> tx.params.assetCommand.None?
      ensures r.Failure? ==> r.error == FailedToGetParameter
      ensures r.Success? ==> fresh(r.value) && r.value.tx == tx && r.value.subTxID == subTxID && r.value.fee == fee
      ensures r.Success? ==> r.value.assetAmountList == InitialAmountList(assetAmountList, tx.params)
      ensures r.Success? ==> r.value.assetID == assetID && r.value.assetCommand == tx.params.assetCommand.value
      ensures r.Success? ==> r.value.Fresh()
    {
      var amounts := assetAmountList;
      if amounts == [] {
        amounts := tx.params.assetAmountList.GetOr([]);
      }
      match tx.params.assetCommand {
        case None =>
          r := Failure(FailedToGetParameter);
        case Some(cmd) =>
          var b := new AssetTxBuilder(tx, subTxID, fee, amounts, assetID, cmd);
          r := Success(b);
      }
    }

    /** `GetAssetAmount`: the total of the asset amount list, as a wrapping
        64-bit sum. */
    function AssetAmount(): (r: Amount)
      reads this`assetAmountList
      ensures r == Sum(assetAmountList) % U64Limit
      ensures Sum(assetAmountList) < U64Limit ==> r == Sum(assetAmountList)
    {
      AccumulateIsSumMod(assetAmountList);
      AccumulateU64(assetAmountList)
    }

    /** `GetSK`: the asset ownership key, derived by the master key derivation
        function from the mandatory `AssetKIDIndex` parameter as a regular key. */
    function SecretKey(): (r: Result<Scalar, TxFailureReason>)
      reads tx`params
      ensures r.Success? <==> tx.params.assetKIDIndex.Some?
      ensures r.Success? ==> r.value == tx.deriveKey(KeyID(tx.params.assetKIDIndex.value, Regular))
      ensures r.Failure? ==> r.error == FailedToGetParameter
    {
      match tx.params.assetKIDIndex
      case None => Failure(FailedToGetParameter)
      case Some(idx) => Success(tx.deriveKey(KeyID(idx, Regular)))
    }

    /** The public excess of this party: the base excess, and under Issue
        additionally minus G·issuedBlindingFactor and minus G·sk. */
    function PublicExcess(): (r: Result<Point, TxFailureReason>)
      reads this`inputCoins, this`outputCoins, this`inputs, this`outputs, this`offset,
            this`assetCommand, this`issuedBlindingFactor, tx`params
      ensures r.Success? <==> (assetCommand == Issue ==> SecretKey().Success?)
      ensures r.Failure? ==> r.error == FailedToGetParameter
    {
      var base := ExcessOf(inputCoins, outputCoins, inputs, outputs, offset);
      if assetCommand != Issue then Success(base)
      else
        match SecretKey()
        case Failure(e) => Failure(e)
        case Success(sk) => Success(Add(base, Add(Neg(MulG(issuedBlindingFactor)), Neg(MulG(sk)))))
    }

    /** The offset this party signs with: under Issue, the offset plus the
        asset ownership key. */
    function SigningOffset(): Scalar
      reads this`offset, this`assetCommand, tx`params
      requires assetCommand == Issue ==> SecretKey().Success?
    {
      if assetCommand == Issue then offset + SecretKey().value else offset
    }

    /** `SelectInputs`: the base selection first, then the asset id parameter
        must be present and non-zero and the command one of Issue, Transfer or
        Burn; any other case is a fatal `InvalidTransaction` failure. */
    method SelectInputs(baseSelection: Result<BaseSelection, TxFailureReason>) returns (r: Outcome<TxFailureReason>)
      modifies this`inputCoins, this`change
      ensures baseSelection.Failure? ==> r == Fail(baseSelection.error)
      ensures baseSelection.Failure? ==> inputCoins == old(inputCoins) && change == old(change)
      ensures baseSelection.Success? ==> inputCoins == baseSelection.value.inputCoins && change == baseSelection.value.change
      ensures baseSelection.Success? ==> r == ValidateAssetRequest(tx.params.assetID, assetCommand)
    {
      match baseSelection {
        case Failure(e) =>
          return Fail(e);
        case Success(sel) =>
          inputCoins, change := sel.inputCoins, sel.change;
      }
      match tx.params.assetID {
        case None =>
          return Fail(FailedToGetParameter);
        case Some(id) =>
          if id == 0 {
            return Fail(InvalidTransaction);
          }
      }
      match assetCommand {
        case Issue =>
          r := Pass;
        case Transfer =>
          r := Pass;
        case Burn =>
          r := Pass;
        case _ =>
          r := Fail(InvalidTransaction);
      }
    }

    /** `GenerateNewCoin`: stores one new asset coin, appends exactly it to the
        output coins, persists the whole list and, under Issue, sets the issued
        blinding factor only while it is still zero. `idx` is the key index
        the wallet database gives the coin. */
    method GenerateNewCoin(amount: Amount, isChange: bool, idx: U64)
      modifies this`outputCoins, this`issuedBlindingFactor, tx`storedCoins, tx`params
      ensures outputCoins == old(outputCoins) + [AssetCoin(NewCoinID(amount, isChange, idx), assetID)]
      ensures tx.storedCoins == old(tx.storedCoins) + [Coin(NewCoinID(amount, isChange, idx), assetID, Some(tx.txID))]
      ensures tx.params == old(tx.params).(outputCoins := Some(outputCoins))
      ensures issuedBlindingFactor ==
        if assetCommand == Issue && old(issuedBlindingFactor) == 0
        then tx.switchBlind(assetID, NewCoinID(amount, isChange, idx))
        else old(issuedBlindingFactor)
    {
      var id := NewCoinID(amount, isChange, idx);
      tx.storedCoins := tx.storedCoins + [Coin(id, assetID, Some(tx.txID))];
      outputCoins := outputCoins + [AssetCoin(id, assetID)];
      tx.params := tx.params.(outputCoins := Some(outputCoins));
      if assetCommand == Issue && issuedBlindingFactor == 0 {
        issuedBlindingFactor := tx.switchBlind(assetID, id);
      }
    }

    /** `GenerateNewCoinList`: the base coins, then one asset coin per entry of
        the asset amount list, in list order. The base step appends `baseCoins`
        and hands `baseStored` to the wallet database; `idxs` are the key
        indices the wallet database gives the asset coins. */
    method GenerateNewCoinList(isChange: bool, baseCoins: seq<AssetCoin>, baseStored: seq<Coin>, idxs: seq<U64>)
      requires |idxs| == |assetAmountList|
      modifies this`outputCoins, this`issuedBlindingFactor, tx`storedCoins, tx`params
      ensures outputCoins == old(outputCoins) + baseCoins + AssetCoins(assetAmountList, idxs, isChange, assetID)
      ensures tx.storedCoins == old(tx.storedCoins) + baseStored + StoredCoins(AssetCoins(assetAmountList, idxs, isChange, assetID), tx.txID)
      ensures issuedBlindingFactor == BlindAfter(old(issuedBlindingFactor), assetCommand, AssetCoins(assetAmountList, idxs, isChange, assetID), tx.switchBlind)
      ensures assetAmountList == [] ==> tx.params == old(tx.params)
      ensures assetAmountList != [] ==> tx.params == old(tx.params).(outputCoins := Some(outputCoins))
    {
      outputCoins := outputCoins + baseCoins;
      tx.storedCoins := tx.storedCoins + baseStored;
      ghost var start := outputCoins;
      ghost var made: seq<AssetCoin> := [];
      var i := 0;
      while i < |assetAmountList|
        invariant 0 <= i <= |assetAmountList|
        invariant made == AssetCoins(assetAmountList[..i], idxs[..i], isChange, assetID)
        invariant outputCoins == start + made
        invariant tx.storedCoins == old(tx.storedCoins) + baseStored + StoredCoins(made, tx.txID)
        invariant issuedBlindingFactor == BlindAfter(old(issuedBlindingFactor), assetCommand, made, tx.switchBlind)
        invariant tx.params == if i == 0 then old(tx.params) else old(tx.params).(outputCoins := Some(outputCoins))
      {
        ghost var coin := AssetCoin(NewCoinID(assetAmountList[i], isChange, idxs[i]), assetID);
        AssetCoinsStep(assetAmountList, idxs, i, isChange, assetID);
        AppendStep(made, coin, old(issuedBlindingFactor), assetCommand, tx.switchBlind, tx.txID);
        GenerateNewCoin(assetAmountList[i], isChange, idxs[i]);
        made := made + [coin];
        i := i + 1;
      }
      assert i == |idxs|;
      assert assetAmountList[..i] == assetAmountList && idxs[..i] == idxs;
    }

    /** `AddChange`: the base change, then an asset change coin exactly when
        the asset change is non-zero. The base step appends `baseChange` and
        hands `baseStored` to the wallet database; `idx` is the key index the
        wallet database gives the asset change coin. */
    method AddChange(baseChange: seq<AssetCoin>, baseStored: seq<Coin>, idx: U64)
      modifies this`outputCoins, this`issuedBlindingFactor, tx`storedCoins, tx`params
      ensures assetChange == 0 ==> outputCoins == old(outputCoins) + baseChange
      ensures assetChange == 0 ==> tx.storedCoins == old(tx.storedCoins) + baseStored && tx.params == old(tx.params)
      ensures assetChange == 0 ==> issuedBlindingFactor == old(issuedBlindingFactor)
      ensures assetChange != 0 ==> outputCoins == old(outputCoins) + baseChange + [AssetCoin(NewCoinID(assetChange, true, idx), assetID)]
      ensures assetChange != 0 ==> tx.storedCoins == old(tx.storedCoins) + baseStored + [Coin(NewCoinID(assetChange, true, idx), assetID, Some(tx.txID))]
      ensures assetChange != 0 ==> tx.params == old(tx.params).(outputCoins := Some(outputCoins))
      ensures assetChange != 0 ==>
        issuedBlindingFactor ==
          if assetCommand == Issue && old(issuedBlindingFactor) == 0
          then tx.switchBlind(assetID, NewCoinID(assetChange, true, idx))
          else old(issuedBlindingFactor)
    {
      outputCoins := outputCoins + baseChange;
      tx.storedCoins := tx.storedCoins + baseStored;
      if assetChange == 0 {
        return;
      }
      GenerateNewCoin(assetChange, true, idx);
    }

    /** `GetPublicExcess`: the running sums of the source, proved equal to
        `PublicExcess()`. */
    method GetPublicExcess() returns (r: Result<Point, TxFailureReason>)
      ensures r == PublicExcess()
    {
      var amount := AccumulateBaseValues(inputCoins);
      var publicAmount := MulH(amount);
      publicAmount := Neg(publicAmount);
      amount := AccumulateBaseValues(outputCoins);
      publicAmount := Add(publicAmount, MulH(amount));

      var publicExcess := MulG(offset);
      publicExcess := AddBaseOutputCommitments(publicExcess, outputs);
      publicExcess := Neg(publicExcess);
      publicExcess := AddInputCommitments(publicExcess, inputs);
      publicExcess := Add(publicExcess, publicAmount);

      if assetCommand == Issue {
        var pt := MulG(issuedBlindingFactor);
        pt := Neg(pt);
        var sk := SecretKey();
        if sk.Failure? {
          return Failure(sk.error);
        }
        var pt2 := MulG(sk.value);
        pt2 := Neg(pt2);
        pt := Add(pt, pt2);
        publicExcess := Add(publicExcess, pt);
      }
      r := Success(publicExcess);
    }

    /** `CreateKernel`: the base kernel, then an emission kernel exactly when
        the command is Issue and the total asset amount is positive. The
        emission kernel is allocated before the key is read, so a missing key
        leaves it in place, unsigned. */
    method CreateKernel(baseKernel: TxKernel) returns (r: Outcome<TxFailureReason>)
      modifies this`kernel, this`emissionKernel
      ensures kernel == Some(baseKernel)
      ensures !EmitsAsset(assetCommand, assetAmountList) ==> r == Pass && emissionKernel == old(emissionKernel)
      ensures EmitsAsset(assetCommand, assetAmountList) && SecretKey().Success? ==>
        r == Pass && emissionKernel == Some(tx.signKernel(UnsignedEmissionKernel(assetID, AssetAmount()), SecretKey().value))
      ensures EmitsAsset(assetCommand, assetAmountList) && SecretKey().Failure? ==>
        r == Fail(FailedToGetParameter) && emissionKernel == Some(UnsignedEmissionKernel(assetID, AssetAmount()))
    {
      kernel := Some(baseKernel);
      var assetAmount := AccumulateU64(assetAmountList);
      if assetCommand == Issue && assetAmount > 0 {
        emissionKernel := Some(UnsignedEmissionKernel(assetID, assetAmount));
        var sk := SecretKey();
        if sk.Failure? {
          return Fail(sk.error);
        }
        emissionKernel := Some(tx.signKernel(emissionKernel.value, sk.value));
      }
      r := Pass;
    }

    /** `SignPartial`: the kernel commitment becomes own excess plus peer
        excess, the message is the kernel hash over it, and the key keeper signs
        with own nonce plus peer nonce and, under Issue, the offset plus the
        asset ownership key. */
    method SignPartial() returns (r: Outcome<TxFailureReason>)
      requires kernel.Some?
      modifies this`kernel, this`message, this`partialSignature
      ensures old(PublicExcess()).Failure? ==> r == Fail(old(PublicExcess()).error)
      ensures old(PublicExcess()).Failure? ==>
        kernel == old(kernel) && message == old(message) && partialSignature == old(partialSignature)
      ensures old(PublicExcess()).Success? ==> r == Pass && Signed(old(kernel).value, old(PublicExcess()).value)
    {
      var excess := GetPublicExcess();
      if excess.Failure? {
        return Fail(excess.error);
      }
      SignWith(excess.value);
      r := Pass;
    }

    /** The state `SignPartial` leaves once its own public excess is known. */
    ghost predicate Signed(kernel0: TxKernel, excess: Point)
      reads this`kernel, this`message, this`partialSignature, this`peerPublicExcess, this`peerLockImage,
            this`inputCoins, this`outputCoins, this`nonceSlot, this`publicNonce, this`peerPublicNonce,
            this`offset, this`assetCommand, tx`params
      requires assetCommand == Issue ==> SecretKey().Success?
    {
      var total := Add(excess, peerPublicExcess);
      && kernel == Some(kernel0.(commitment := Encoded(total)))
      && message == Some(KernelHash(kernel.value, peerLockImage))
      && partialSignature == Some(PartialSignature(inputCoins, outputCoins, SigningOffset(), nonceSlot,
                                                   message.value, Add(publicNonce, peerPublicNonce), total))
    }

    /** The part of `SignPartial` after its own public excess `excess` is known:
        the kernel commitment, the kernel hash and the key keeper's signature. */
    method SignWith(excess: Point)
      requires kernel.Some?
      requires assetCommand == Issue ==> SecretKey().Success?
      modifies this`kernel, this`message, this`partialSignature
      ensures Signed(old(kernel).value, excess)
    {
      var totalPublicExcess := Add(excess, peerPublicExcess);
      kernel := Some(kernel.value.(commitment := Encoded(totalPublicExcess)));
      message := Some(KernelHash(kernel.value, peerLockImage));
      var signingOffset := offset;
      if assetCommand == Issue {
        var sk := SecretKey();
        signingOffset := signingOffset + sk.value;
      }
      partialSignature := Some(PartialSignature(inputCoins, outputCoins, signingOffset, nonceSlot,
                                                message.value, Add(publicNonce, peerPublicNonce), totalPublicExcess));
    }

    /** `CreateTransaction`: the emission kernel (if any) ahead of the main
        kernel, the two offsets added, local inputs and outputs followed by the
        peer's; the builder's parts are moved out. */
    method CreateTransaction() returns (t: Transaction)
      requires kernel.Some?
      modifies this`kernel, this`emissionKernel, this`inputs, this`outputs, this`peerInputs, this`peerOutputs
      ensures t == Assemble(old(emissionKernel), old(kernel).value, offset, peerOffset,
                            old(inputs), old(peerInputs), old(outputs), old(peerOutputs))
      ensures kernel.None? && emissionKernel.None?
      ensures inputs == [] && outputs == [] && peerInputs == [] && peerOutputs == []
    {
      var kernels: seq<TxKernel> := [];
      if emissionKernel.Some? {
        kernels := kernels + [emissionKernel.value];
        emissionKernel := None;
      }
      kernels := kernels + [kernel.value];
      kernel := None;
      t := Transaction(kernels, offset + peerOffset, inputs, outputs);
      inputs, outputs := [], [];
      t := t.(inputs := t.inputs + peerInputs, outputs := t.outputs + peerOutputs);
      peerInputs, peerOutputs := [], [];
    }
  }
}
