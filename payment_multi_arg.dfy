/** The multi-argument form of a token payment: a thin wrapper around
    the payment that travels as three positional arguments or results,
    token identifier, nonce and amount, instead of one. The argument
    stream is modelled as a sequence of typed slots; the per-field codecs
    behind each slot are opaque. */
module PaymentMultiArg {
  import opened Types

  /** The payment a wrapper holds. */
  datatype DctTokenPayment = DctTokenPayment(tokenIdentifier: TokenIdentifier, tokenNonce: u64, amount: nat)

  datatype DctTokenPaymentMultiArg = DctTokenPaymentMultiArg(obj: DctTokenPayment)

  /** Wraps a payment. */
  function From(obj: DctTokenPayment): (r: DctTokenPaymentMultiArg)
    ensures IntoDctTokenPayment(r) == obj
  {
    DctTokenPaymentMultiArg(obj)
  }

  /** Unwraps a payment. */
  function IntoDctTokenPayment(m: DctTokenPaymentMultiArg): (r: DctTokenPayment)
    ensures DctTokenPaymentMultiArg(r) == m
  {
    m.obj
  }

  /** Unwrapping and wrapping again gives back the same wrapper, so the
      two conversions are inverse bijections. */
  lemma IntoThenFrom(m: DctTokenPaymentMultiArg)
    ensures From(IntoDctTokenPayment(m)) == m
  {
  }

  // ---------------------------------------------------------------------
  // Argument and result slots

  /** The name of an endpoint argument, used in decode error messages. */
  type ArgId = string

  datatype SlotKind = TokenIdentifierSlot | U64Slot | BigUintSlot

  /** One positional argument or result, already decoded by its field codec. */
  datatype ArgValue =
    | TokenIdentifierArg(id: TokenIdentifier)
    | U64Arg(n: u64)
    | BigUintArg(v: nat)

  function KindOf(a: ArgValue): SlotKind
  {
    match a
    case TokenIdentifierArg(_) => TokenIdentifierSlot
    case U64Arg(_) => U64Slot
    case BigUintArg(_) => BigUintSlot
  }

  /** What loading an argument can fail with: the stream is exhausted,
      or the argument does not decode as the expected field. */
  datatype ArgError = WrongNumberOfArguments | ArgDecodeError(argId: ArgId, expected: SlotKind)

  /** The field order of the wrapper, shared by loading, pushing and
      finishing. */
  const SLOT_KINDS: seq<SlotKind> := [TokenIdentifierSlot, U64Slot, BigUintSlot]

  /** The three slots a wrapper is written as. */
  function Flatten(m: DctTokenPaymentMultiArg): seq<ArgValue>
  {
    [TokenIdentifierArg(m.obj.tokenIdentifier), U64Arg(m.obj.tokenNonce), BigUintArg(m.obj.amount)]
  }

  /** A wrapper is written as exactly three slots, one per field, in the
      field order. */
  lemma FlattenFollowsFieldOrder(m: DctTokenPaymentMultiArg)
    ensures |Flatten(m)| == |SLOT_KINDS|
    ensures forall i :: 0 <= i < |SLOT_KINDS| ==> KindOf(Flatten(m)[i]) == SLOT_KINDS[i]
  {
  }

  /** Distinct wrappers are written differently, so nothing is lost in
      writing. */
  lemma FlattenInjective(m1: DctTokenPaymentMultiArg, m2: DctTokenPaymentMultiArg)
    requires Flatten(m1) == Flatten(m2)
    ensures m1 == m2
  {
    assert Flatten(m1)[0] == Flatten(m2)[0];
    assert Flatten(m1)[1] == Flatten(m2)[1];
    assert Flatten(m1)[2] == Flatten(m2)[2];
  }

  /** Loads the argument at `pos` as a field of the given kind. */
  function LoadSlot(args: seq<ArgValue>, pos: nat, argId: ArgId, kind: SlotKind): (r: Result<ArgValue, ArgError>)
    ensures r.Success? <==> pos < |args| && KindOf(args[pos]) == kind
    ensures r.Success? ==> r.value == args[pos]
    ensures pos >= |args| ==> r == Failure(WrongNumberOfArguments)
    ensures pos < |args| && KindOf(args[pos]) != kind ==> r == Failure(ArgDecodeError(argId, kind))
  {
    if pos >= |args| then Failure(WrongNumberOfArguments)
    else if KindOf(args[pos]) != kind then Failure(ArgDecodeError(argId, kind))
    else Success(args[pos])
  }

  /** What loading a wrapper from position `pos` yields: the wrapper and
      the position after it, or the error of the first field that does
      not load. */
  function LoadPayment(args: seq<ArgValue>, pos: nat, argId: ArgId): Result<(DctTokenPaymentMultiArg, nat), ArgError>
  {
    match LoadSlot(args, pos, argId, TokenIdentifierSlot)
    case Failure(e) => Failure(e)
    case Success(t) =>
      match LoadSlot(args, pos + 1, argId, U64Slot)
      case Failure(e) => Failure(e)
      case Success(n) =>
        match LoadSlot(args, pos + 2, argId, BigUintSlot)
        case Failure(e) => Failure(e)
        case Success(a) => Success((From(DctTokenPayment(t.id, n.n, a.v)), pos + 3))
  }

  /** A load that succeeds consumes exactly three arguments, and they are
      the writing of the wrapper it returns. */
  lemma LoadPaymentConsumesThree(args: seq<ArgValue>, pos: nat, argId: ArgId)
    requires LoadPayment(args, pos, argId).Success?
    ensures var (m, next) := LoadPayment(args, pos, argId).value;
      next == pos + 3 && next <= |args| && args[pos..next] == Flatten(m)
  {
    var (m, next) := LoadPayment(args, pos, argId).value;
    assert args[pos..next][0] == args[pos];
    assert args[pos..next][1] == args[pos + 1];
    assert args[pos..next][2] == args[pos + 2];
  }

  /** Three arguments that are the writing of a wrapper load as that
      wrapper, whatever precedes or follows them. */
  lemma LoadFlattened(args: seq<ArgValue>, pos: nat, argId: ArgId, m: DctTokenPaymentMultiArg)
    requires pos + 3 <= |args| && args[pos..pos + 3] == Flatten(m)
    ensures LoadPayment(args, pos, argId) == Success((m, pos + 3))
  {
    assert args[pos] == args[pos..pos + 3][0];
    assert args[pos + 1] == args[pos..pos + 3][1];
    assert args[pos + 2] == args[pos..pos + 3][2];
  }

  /** The load fails exactly when fewer than three arguments remain or
      one of them is not the field the order expects; the first field
      that fails decides the error. */
  lemma LoadPaymentFails(args: seq<ArgValue>, pos: nat, argId: ArgId)
    ensures LoadPayment(args, pos, argId).Failure? <==>
      !(pos + 3 <= |args| && forall i :: 0 <= i < 3 ==> KindOf(args[pos + i]) == SLOT_KINDS[i])
    ensures LoadSlot(args, pos, argId, TokenIdentifierSlot).Failure? ==>
      LoadPayment(args, pos, argId) == Failure(LoadSlot(args, pos, argId, TokenIdentifierSlot).error)
    ensures LoadSlot(args, pos, argId, TokenIdentifierSlot).Success? && LoadSlot(args, pos + 1, argId, U64Slot).Failure? ==>
      LoadPayment(args, pos, argId) == Failure(LoadSlot(args, pos + 1, argId, U64Slot).error)
    ensures LoadSlot(args, pos, argId, TokenIdentifierSlot).Success? && LoadSlot(args, pos + 1, argId, U64Slot).Success?
            && LoadSlot(args, pos + 2, argId, BigUintSlot).Failure? ==>
      LoadPayment(args, pos, argId) == Failure(LoadSlot(args, pos + 2, argId, BigUintSlot).error)
  {
    if pos + 3 <= |args| && forall i :: 0 <= i < 3 ==> KindOf(args[pos + i]) == SLOT_KINDS[i] {
      assert KindOf(args[pos + 0]) == SLOT_KINDS[0];
      assert KindOf(args[pos + 1]) == SLOT_KINDS[1];
      assert KindOf(args[pos + 2]) == SLOT_KINDS[2];
    }
  }

  /** Pushing a wrapper after any arguments and loading from where it
      starts gives the wrapper back and stops right after it. The
      payment here carries only identifier, nonce and amount, so these
      three fields decide equality. */
  lemma LoadAfterPush(prefix: seq<ArgValue>, m: DctTokenPaymentMultiArg, rest: seq<ArgValue>, argId: ArgId)
    ensures LoadPayment(prefix + Flatten(m) + rest, |prefix|, argId) == Success((m, |prefix| + 3))
  {
    var args := prefix + Flatten(m) + rest;
    assert args[|prefix|..|prefix| + 3] == Flatten(m);
    LoadFlattened(args, |prefix|, argId, m);
  }

  // ---------------------------------------------------------------------
  // The argument loader, the argument writer and the result sink

  /** The endpoint's argument loader: the arguments and the position of
      the next one to load. */
  class ArgInput {
    var args: seq<ArgValue>
    var position: nat

    constructor(args: seq<ArgValue>)
      ensures this.args == args && position == 0
    {
      this.args := args;
      position := 0;
    }

    /** Loads the next argument as a field of the given kind and moves
        past it; a failed load stays where it was. */
    method NextArg(argId: ArgId, kind: SlotKind) returns (r: Result<ArgValue, ArgError>)
      modifies this
      ensures args == old(args)
      ensures r == LoadSlot(old(args), old(position), argId, kind)
      ensures position == if r.Success? then old(position) + 1 else old(position)
    {
      if position >= |args| {
        r := Failure(WrongNumberOfArguments);
      } else if KindOf(args[position]) != kind {
        r := Failure(ArgDecodeError(argId, kind));
      } else {
        r := Success(args[position]);
        position := position + 1;
      }
    }
  }

  /** Loads a wrapper: the token identifier, then the nonce, then the
      amount, each as the next argument. */
  method DynLoad(loader: ArgInput, argId: ArgId) returns (r: Result<DctTokenPaymentMultiArg, ArgError>)
    modifies loader
    ensures loader.args == old(loader.args)
    ensures var spec := LoadPayment(old(loader.args), old(loader.position), argId);
      && (spec.Success? ==> r == Success(spec.value.0) && loader.position == spec.value.1)
      && (spec.Failure? ==> r == Failure(spec.error))
  {
    var t := loader.NextArg(argId, TokenIdentifierSlot);
    if t.Failure? {
      return Failure(t.error);
    }
    var n := loader.NextArg(argId, U64Slot);
    if n.Failure? {
      return Failure(n.error);
    }
    var a := loader.NextArg(argId, BigUintSlot);
    if a.Failure? {
      return Failure(a.error);
    }
    r := Success(From(DctTokenPayment(t.value.id, n.value.n, a.value.v)));
  }

  /** The arguments of an outgoing contract call, appended one by one. */
  class ArgOutput {
    var args: seq<ArgValue>

    constructor()
      ensures args == []
    {
      args := [];
    }

    method PushArg(a: ArgValue)
      modifies this
      ensures args == old(args) + [a]
    {
      args := args + [a];
    }
  }

  /** Pushes a borrowed wrapper as three call arguments, in the field
      order. */
  method PushDynArgRef(m: DctTokenPaymentMultiArg, output: ArgOutput)
    modifies output
    ensures output.args == old(output.args) + Flatten(m)
  {
    output.PushArg(TokenIdentifierArg(m.obj.tokenIdentifier));
    output.PushArg(U64Arg(m.obj.tokenNonce));
    output.PushArg(BigUintArg(m.obj.amount));
  }

  /** Pushes an owned wrapper by pushing it borrowed: the same three
      arguments. */
  method PushDynArg(m: DctTokenPaymentMultiArg, output: ArgOutput)
    modifies output
    ensures output.args == old(output.args) + Flatten(m)
  {
    PushDynArgRef(m, output);
  }

  /** The endpoint's results, appended one by one. */
  class FinishApi {
    var results: seq<ArgValue>

    constructor()
      ensures results == []
    {
      results := [];
    }

    method FinishValue(a: ArgValue)
      modifies this
      ensures results == old(results) + [a]
    {
      results := results + [a];
    }
  }

  /** Returns a wrapper from an endpoint as three results, in the field
      order. */
  method Finish(m: DctTokenPaymentMultiArg, api: FinishApi)
    modifies api
    ensures api.results == old(api.results) + Flatten(m)
  {
    api.FinishValue(TokenIdentifierArg(m.obj.tokenIdentifier));
    api.FinishValue(U64Arg(m.obj.tokenNonce));
    api.FinishValue(BigUintArg(m.obj.amount));
  }

  /** A wrapper pushed as the arguments of a call is what the called
      endpoint loads, equality being over identifier, nonce and amount. */
  method PushThenLoad(m: DctTokenPaymentMultiArg, argId: ArgId) returns (r: Result<DctTokenPaymentMultiArg, ArgError>)
    ensures r == Success(m)
  {
    var output := new ArgOutput();
    PushDynArg(m, output);
    var loader := new ArgInput(output.args);
    LoadAfterPush([], m, [], argId);
    assert output.args == [] + Flatten(m) + [];
    r := DynLoad(loader, argId);
  }

  /** Results finished by one endpoint read back, as arguments, as the
      same wrapper, equality being over identifier, nonce and amount. */
  method FinishThenLoad(m: DctTokenPaymentMultiArg, argId: ArgId) returns (r: Result<DctTokenPaymentMultiArg, ArgError>)
    ensures r == Success(m)
  {
    var api := new FinishApi();
    Finish(m, api);
    var loader := new ArgInput(api.results);
    LoadAfterPush([], m, [], argId);
    assert api.results == [] + Flatten(m) + [];
    r := DynLoad(loader, argId);
  }

  // ---------------------------------------------------------------------
  // Storage in a managed vector

  /** How an item type is stored in a managed vector: its payload size,
      whether it may skip re-serialization, and its byte reader and
      writer. */
  datatype ItemCodec<!T> = ItemCodec(payloadSize: nat, skipsReserialization: bool,
                                    fromBytes: Bytes -> T, toBytes: T -> Bytes)

  ghost predicate RoundTrips<T(!new)>(c: ItemCodec<T>)
  {
    forall x :: c.fromBytes(c.toBytes(x)) == x
  }

  /** The wrapper is stored as the payment it holds: the same payload
      size and re-serialization flag, reading wraps what the payment's
      reader reads, writing writes the inner payment. */
  function MultiArgItemCodec(inner: ItemCodec<DctTokenPayment>): (r: ItemCodec<DctTokenPaymentMultiArg>)
    ensures r.payloadSize == inner.payloadSize
    ensures r.skipsReserialization == inner.skipsReserialization
    ensures forall b :: r.fromBytes(b) == From(inner.fromBytes(b))
    ensures forall m :: r.toBytes(m) == inner.toBytes(IntoDctTokenPayment(m))
  {
    ItemCodec(inner.payloadSize, inner.skipsReserialization,
              (b: Bytes) => From(inner.fromBytes(b)),
              (m: DctTokenPaymentMultiArg) => inner.toBytes(m.obj))
  }

  /** When the payment's managed-vector encoding reads back what it
      wrote, so does the wrapper's. */
  lemma MultiArgItemCodecRoundTrips(inner: ItemCodec<DctTokenPayment>)
    requires RoundTrips(inner)
    ensures RoundTrips(MultiArgItemCodec(inner))
  {
    var c := MultiArgItemCodec(inner);
    forall m: DctTokenPaymentMultiArg
      ensures c.fromBytes(c.toBytes(m)) == m
    {
      assert inner.fromBytes(inner.toBytes(m.obj)) == m.obj;
    }
  }
}
