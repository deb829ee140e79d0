/**
 * The encryption gateway of src/lib/fhe.ts.
 *
 * The module keeps three variables: the cached FHE instance, a promise for
 * that instance (declared and cleared, never assigned), and the once-only
 * promise that loads the relayer SDK script. `loadSdk`, `initializeFHE`,
 * `encryptUint32`, `isFheInitialized` and `resetFheInstance` read and update
 * them. Everything outside the module is a parameter of type `Env`:
 *  - the browser globals;
 *  - how the script load settles;
 *  - the SDK's `initSDK`, `createInstance` and encryption;
 *  - viem's `getAddress`.
 *
 * Each operation is given first as a function from the old module state to a
 * `Step` (its result, the new state, the external calls it made, in order).
 * The properties are lemmas about those functions. The class `Gateway` holds
 * the state in fields, and its methods are proved to behave as the functions say.
 */
module Fhe {

  import opened Wrappers
  import opened Ecma
  import opened Hex

  /** The largest value the uint32 encryption accepts (2^32 - 1). */
  const MaxUint32: int := 4294967295

  /** Objects the browser and the SDK hand over, known only by identity. */
  type Instance = nat
  type Provider = nat

  /** Why a gateway operation threw. */
  datatype FheError =
    | NoBrowser
    | NoProvider
    | SdkLoadFailed(reason: string)
    | InitSdkFailed(reason: string)
    | CreateInstanceFailed(reason: string)
    | OutOfRange
    | InvalidAddress(reason: string)
    | EncryptFailed(reason: string)
    | NoHandles
    | NoInputProof

  /** The `message` of the thrown error; errors raised by the browser, viem or the SDK bring their own. */
  function ErrorMessage(e: FheError): string {
    match e
    case NoBrowser => "FHE SDK requires browser environment"
    case NoProvider => "Ethereum provider not found. Please connect your wallet first."
    case SdkLoadFailed(why) => why
    case InitSdkFailed(why) => why
    case CreateInstanceFailed(why) => why
    case OutOfRange => "Value out of range for uint32 encryption"
    case InvalidAddress(why) => why
    case EncryptFailed(why) => why
    case NoHandles => "Encryption did not return any handles"
    case NoInputProof => "Encryption did not return inputProof"
  }

  /** How the SDK-loading promise settles: with `window.relayerSDK`, or rejected with one of loadSdk's errors. */
  datatype SdkSettlement = SdkLoaded | SdkLoadRejected(reason: string)

  /** What the encryption resolved with: `handles` (None when it is not an array) and `inputProof` (None when absent). */
  datatype EncryptionOutput = EncryptionOutput(handles: Option<seq<Bytes>>, inputProof: Option<Bytes>)

  /** What encryptUint32 returns: the first handle and the proof, both as "0x" hex strings. */
  datatype Payload = Payload(handle: string, proof: string)

  /** The world outside the module during one gateway call. */
  datatype Env = Env(
    browser: bool,                                  // typeof window !== 'undefined'
    walletProviders: seq<Option<Provider>>,         // window.ethereum, okxwallet?.provider, okxwallet, coinbaseWalletExtension
    sdkOnWindow: bool,                              // window.relayerSDK is already set
    scriptLoad: SdkSettlement,                      // how a newly created loading promise settles
    initSdk: Result<(), string>,                    // sdk.initSDK()
    createInstance: Result<Instance, string>,       // sdk.createInstance(config)
    getAddress: string -> Result<string, string>,   // viem's checksum normalisation, which throws on a malformed address
    encrypt: (Instance, string, string, JsNumber) -> Result<EncryptionOutput, string>)
                                                    // createEncryptedInput(contract, user).add32(value).encrypt()

  /** A call into the SDK or the page, in the order the gateway makes them. */
  datatype BackendCall =
    | CreateSdkPromise
    | InitSdk
    | CreateInstance(network: Provider)
    | EncryptInput(instance: Instance, contract: string, user: string, value: JsNumber)

  /** The module variables fheInstance, fheInstancePromise and sdkPromise. */
  datatype GatewayState = GatewayState(instance: Option<Instance>, instancePromise: Option<Instance>, sdkPromise: Option<SdkSettlement>)

  /** One operation's result, the state it leaves, and the calls it made. */
  datatype Step<T> = Step(result: Result<T, FheError>, state: GatewayState, calls: seq<BackendCall>)

  /** How many times the SDK-loading promise was created. */
  function SdkLoads(calls: seq<BackendCall>): nat {
    if calls == [] then 0
    else SdkLoads(calls[..|calls| - 1]) + (if calls[|calls| - 1] == CreateSdkPromise then 1 else 0)
  }

  lemma {:induction false} SdkLoadsAppend(a: seq<BackendCall>, b: seq<BackendCall>)
    ensures SdkLoads(a + b) == SdkLoads(a) + SdkLoads(b)
  {
    if b != [] {
      assert (a + b)[..|a + b| - 1] == a + b[..|b| - 1];
      SdkLoadsAppend(a, b[..|b| - 1]);
    } else {
      assert a + b == a;
    }
  }

  /** The JavaScript `||` chain over the candidate providers: the first one that is present. */
  function FirstProvider(candidates: seq<Option<Provider>>): (p: Option<Provider>)
    ensures p.None? <==> forall k :: 0 <= k < |candidates| ==> candidates[k].None?
    ensures p.Some? ==> exists k :: 0 <= k < |candidates| && candidates[k] == p
                                    && forall j :: 0 <= j < k ==> candidates[j].None?
  {
    if candidates == [] then None
    else if candidates[0].Some? then candidates[0]
    else
      var p := FirstProvider(candidates[1..]);
      assert forall k :: 1 <= k < |candidates| ==> candidates[k] == candidates[1..][k - 1];
      p
  }

  function Settle(p: SdkSettlement): Result<(), FheError> {
    match p
    case SdkLoaded => Success(())
    case SdkLoadRejected(why) => Failure(SdkLoadFailed(why))
  }

  /** loadSdk (fhe.ts lines 30-93): the promise is created the first time only, and every later call gets it back. */
  function LoadSdkSpec(s: GatewayState, env: Env): Step<()> {
    if !env.browser then Step(Failure(NoBrowser), s, [])
    else if env.sdkOnWindow then Step(Success(()), s, [])
    else if s.sdkPromise.Some? then Step(Settle(s.sdkPromise.value), s, [])
    else Step(Settle(env.scriptLoad), s.(sdkPromise := Some(env.scriptLoad)), [CreateSdkPromise])
  }

  /** initializeFHE (fhe.ts lines 115-155). */
  function InitializeSpec(s: GatewayState, env: Env, provider: Option<Provider>): Step<Instance> {
    if s.instance.Some? then Step(Success(s.instance.value), s, [])
    else if !env.browser then Step(Failure(NoBrowser), s, [])
    else
      var network := FirstProvider([provider] + env.walletProviders);
      if network.None? then Step(Failure(NoProvider), s, [])
      else
        var load := LoadSdkSpec(s, env);
        var rest := AfterSdkLoad(load.result, load.state, env, network.value);
        Step(rest.result, rest.state, load.calls + rest.calls)
  }

  /** The rest of initializeFHE once loadSdk has settled with `loaded`: initSDK, then createInstance on `network`. */
  function AfterSdkLoad(loaded: Result<(), FheError>, s: GatewayState, env: Env, network: Provider): Step<Instance> {
    if loaded.Failure? then Step(Failure(loaded.error), s, [])
    else if env.initSdk.Failure? then Step(Failure(InitSdkFailed(env.initSdk.error)), s, [InitSdk])
    else
      var calls := [InitSdk, CreateInstance(network)];
      match env.createInstance
      case Failure(why) => Step(Failure(CreateInstanceFailed(why)), s, calls)
      case Success(inst) => Step(Success(inst), s.(instance := Some(inst)), calls)
  }

  /** The guard of encryptUint32 (fhe.ts line 165). NaN passes it, since NaN compares false with every bound. */
  predicate OutOfUint32Range(value: JsNumber) {
    value.Int? && (value.i < 0 || value.i > MaxUint32)
  }

  /** ensureHandlePayload (fhe.ts lines 98-110). */
  function EnsureHandlePayload(handles: Option<seq<Bytes>>, inputProof: Option<Bytes>): (r: Result<Payload, FheError>)
    ensures r == Failure(NoHandles) <==> handles.None? || handles.value == []
    ensures r == Failure(NoInputProof) <==> handles.Some? && handles.value != [] && inputProof.None?
    ensures r.Success? ==> handles.Some? && handles.value != [] && inputProof.Some?
    ensures r.Success? ==> FromHex(r.value.handle) == Some(handles.value[0])
                           && FromHex(r.value.proof) == Some(inputProof.value)
    ensures r.Success? ==> r.value.handle[..2] == "0x" && r.value.proof[..2] == "0x"
  {
    if handles.None? || handles.value == [] then Failure(NoHandles)
    else if inputProof.None? then Failure(NoInputProof)
    else
      ToHexRoundTrip(handles.value[0]);
      ToHexRoundTrip(inputProof.value);
      Success(Payload(ToHex(handles.value[0]), ToHex(inputProof.value)))
  }

  /** encryptUint32 (fhe.ts lines 160-189). */
  function EncryptUint32Spec(s: GatewayState, env: Env, value: JsNumber, contract: string, user: string): (r: Step<Payload>)
    ensures OutOfUint32Range(value) ==> r == Step(Failure(OutOfRange), s, [])
    ensures r.result == Failure(OutOfRange) <==> OutOfUint32Range(value)
  {
    if OutOfUint32Range(value) then Step(Failure(OutOfRange), s, [])
    else
      var init := InitializeSpec(s, env, None);
      if init.result.Failure? then Step(Failure(init.result.error), init.state, init.calls)
      else
        var rest := EncryptWith(init.result.value, init.state, env, value, contract, user);
        Step(rest.result, rest.state, init.calls + rest.calls)
  }

  /** The rest of encryptUint32 once `instance` is at hand: checksum both addresses, encrypt, check the output. */
  function EncryptWith(instance: Instance, s: GatewayState, env: Env, value: JsNumber, contract: string, user: string): (r: Step<Payload>)
    ensures r.state == s
    ensures r.calls == [] <==> env.getAddress(contract).Failure? || env.getAddress(user).Failure?
    ensures r.calls != [] ==>
      r.calls == [EncryptInput(instance, env.getAddress(contract).value, env.getAddress(user).value, value)]
    ensures r.result.Success? ==> r.calls != []
  {
    match env.getAddress(contract)
    case Failure(why) => Step(Failure(InvalidAddress(why)), s, [])
    case Success(c) =>
      match env.getAddress(user)
      case Failure(why) => Step(Failure(InvalidAddress(why)), s, [])
      case Success(u) =>
        var calls := [EncryptInput(instance, c, u, value)];
        match env.encrypt(instance, c, u, value)
        case Failure(why) => Step(Failure(EncryptFailed(why)), s, calls)
        case Success(out) => Step(EnsureHandlePayload(out.handles, out.inputProof), s, calls)
  }

  /** Every integer in [0, 2^32 - 1] passes the range check, and no other integer does. */
  lemma Uint32RangeExact(v: int)
    ensures !OutOfUint32Range(Int(v)) <==> 0 <= v <= MaxUint32
  {
  }

  /** Initialization never encrypts anything. */
  lemma InitializeCallsNoEncryption(s: GatewayState, env: Env, provider: Option<Provider>)
    ensures forall k :: 0 <= k < |InitializeSpec(s, env, provider).calls| ==>
              !InitializeSpec(s, env, provider).calls[k].EncryptInput?
  {
  }

  /** With a cached instance, initializeFHE returns it and touches nothing: no SDK load, no initSDK, no createInstance. */
  lemma InitializeCached(s: GatewayState, env: Env, provider: Option<Provider>)
    requires s.instance.Some?
    ensures InitializeSpec(s, env, provider) == Step(Success(s.instance.value), s, [])
  {
  }

  /** After a successful initializeFHE the instance is cached, so isFheInitialized() holds,
      and any further call returns the same instance without calling out. */
  lemma InitializeIdempotent(s: GatewayState, env: Env, provider: Option<Provider>, env': Env, provider': Option<Provider>)
    requires InitializeSpec(s, env, provider).result.Success?
    ensures var r := InitializeSpec(s, env, provider);
      r.state.instance == Some(r.result.value)
      && InitializeSpec(r.state, env', provider') == Step(r.result, r.state, [])
  {
  }

  /** A successful initializeFHE ran initSDK and then createInstance on the first provider present,
      the one passed in before the wallet globals. */
  lemma InitializeSuccessCalls(s: GatewayState, env: Env, provider: Option<Provider>)
    requires s.instance.None? && InitializeSpec(s, env, provider).result.Success?
    ensures var r := InitializeSpec(s, env, provider);
      var network := FirstProvider([provider] + env.walletProviders);
      network.Some? && (provider.Some? ==> network == provider)
      && |r.calls| >= 2 && r.calls[|r.calls| - 2..] == [InitSdk, CreateInstance(network.value)]
      && env.createInstance == Success(r.result.value)
  {
    var r := InitializeSpec(s, env, provider);
    var network := FirstProvider([provider] + env.walletProviders);
    assert ([provider] + env.walletProviders)[0] == provider;
    var load := LoadSdkSpec(s, env);
    assert r.calls == load.calls + [InitSdk, CreateInstance(network.value)];
  }

  /** The SDK-loading promise is made at most once: loadSdk creates it only while it is unset,
      and once set it is never replaced. */
  predicate CreatesSdkPromiseOnce<T>(s: GatewayState, r: Step<T>) {
    SdkLoads(r.calls) == (if s.sdkPromise.None? && r.state.sdkPromise.Some? then 1 else 0)
    && (s.sdkPromise.Some? ==> r.state.sdkPromise == s.sdkPromise)
  }

  lemma LoadSdkCreatesPromiseOnce(s: GatewayState, env: Env)
    ensures CreatesSdkPromiseOnce(s, LoadSdkSpec(s, env))
  {
    assert SdkLoads([CreateSdkPromise]) == 1;
  }

  lemma InitializeCreatesPromiseOnce(s: GatewayState, env: Env, provider: Option<Provider>)
    ensures CreatesSdkPromiseOnce(s, InitializeSpec(s, env, provider))
  {
    LoadSdkCreatesPromiseOnce(s, env);
    var load := LoadSdkSpec(s, env);
    var network := FirstProvider([provider] + env.walletProviders);
    if network.Some? {
      SdkLoadsAppend(load.calls, [InitSdk]);
      SdkLoadsAppend(load.calls, [InitSdk, CreateInstance(network.value)]);
    }
  }

  lemma EncryptCreatesPromiseOnce(s: GatewayState, env: Env, value: JsNumber, contract: string, user: string)
    ensures CreatesSdkPromiseOnce(s, EncryptUint32Spec(s, env, value, contract, user))
  {
    var r := EncryptUint32Spec(s, env, value, contract, user);
    if !OutOfUint32Range(value) {
      InitializeCreatesPromiseOnce(s, env, None);
      var init := InitializeSpec(s, env, None);
      if init.result.Success? {
        var rest := EncryptWith(init.result.value, init.state, env, value, contract, user);
        assert r.calls == init.calls + rest.calls && r.state == init.state;
        SdkLoadsAppend(init.calls, rest.calls);
        assert SdkLoads(rest.calls) == 0 by {
          if rest.calls != [] {
            assert rest.calls[..0] == [];
          }
        }
      }
    }
  }

  /** A load that failed stays failed: while the SDK is not on the page, every later loadSdk
      rejects with the same reason, whatever the script would do now. */
  lemma FailedSdkLoadIsFinal(s: GatewayState, env: Env, why: string)
    requires s.sdkPromise == Some(SdkLoadRejected(why)) && env.browser && !env.sdkOnWindow
    ensures LoadSdkSpec(s, env) == Step(Failure(SdkLoadFailed(why)), s, [])
  {
  }

  /** On success, encryptUint32 has made exactly one encryption call and it is its last call.
      The call used the cached instance, the checksummed contract address and then the checksummed
      user address. The payload decodes to the first handle and to the proof. */
  lemma EncryptSuccess(s: GatewayState, env: Env, value: JsNumber, contract: string, user: string)
    requires EncryptUint32Spec(s, env, value, contract, user).result.Success?
    ensures var r := EncryptUint32Spec(s, env, value, contract, user);
      !OutOfUint32Range(value)
      && r.state.instance.Some?
      && env.getAddress(contract).Success? && env.getAddress(user).Success?
      && var call := EncryptInput(r.state.instance.value, env.getAddress(contract).value, env.getAddress(user).value, value);
      |r.calls| > 0 && r.calls[|r.calls| - 1] == call
      && (forall k :: 0 <= k < |r.calls| - 1 ==> !r.calls[k].EncryptInput?)
      && var out := env.encrypt(call.instance, call.contract, call.user, value);
      out.Success? && out.value.handles.Some? && out.value.handles.value != [] && out.value.inputProof.Some?
      && FromHex(r.result.value.handle) == Some(out.value.handles.value[0])
      && FromHex(r.result.value.proof) == Some(out.value.inputProof.value)
  {
    var r := EncryptUint32Spec(s, env, value, contract, user);
    var init := InitializeSpec(s, env, None);
    InitializeCallsNoEncryption(s, env, None);
    InitializeIdempotent(s, env, None, env, None);
    var rest := EncryptWith(init.result.value, init.state, env, value, contract, user);
    assert r == Step(rest.result, init.state, init.calls + rest.calls);
    var call := EncryptInput(init.result.value, env.getAddress(contract).value, env.getAddress(user).value, value);
    assert rest.calls == [call];
    var out := env.encrypt(call.instance, call.contract, call.user, value);
    assert out.Success? && rest.result == EnsureHandlePayload(out.value.handles, out.value.inputProof);
  }

  /** Only the first handle reaches the payload: whatever handles follow it are dropped. */
  lemma LaterHandlesDropped(first: Bytes, rest: seq<Bytes>, inputProof: Option<Bytes>)
    ensures EnsureHandlePayload(Some([first] + rest), inputProof) == EnsureHandlePayload(Some([first]), inputProof)
  {
  }

  /** The module state of fhe.ts (lines 23-25) with the operations that use it. */
  class Gateway {
    var instance: Option<Instance>
    var instancePromise: Option<Instance>
    var sdkPromise: Option<SdkSettlement>
    /** Every call made into the SDK or the page so far. */
    ghost var calls: seq<BackendCall>

    function State(): GatewayState
      reads this
    {
      GatewayState(instance, instancePromise, sdkPromise)
    }

    /** The loading promise exists exactly when it was created once. */
    ghost predicate Valid()
      reads this
    {
      SdkLoads(calls) == (if sdkPromise.Some? then 1 else 0)
    }

    /** isFheInitialized (fhe.ts lines 194-196). */
    function IsFheInitialized(): bool
      reads this
    {
      instance.Some?
    }

    /** The state when the module is first loaded. */
    constructor ()
      ensures Valid() && State() == GatewayState(None, None, None) && calls == []
    {
      instance, instancePromise, sdkPromise := None, None, None;
      calls := [];
    }

    method LoadSdk(env: Env) returns (r: Result<(), FheError>)
      requires Valid()
      modifies this
      ensures Valid()
      ensures var spec := LoadSdkSpec(old(State()), env);
        r == spec.result && State() == spec.state && calls == old(calls) + spec.calls
    {
      if !env.browser {
        return Failure(NoBrowser);
      }
      if env.sdkOnWindow {
        return Success(());
      }
      if sdkPromise.None? {
        sdkPromise := Some(env.scriptLoad);
        calls := calls + [CreateSdkPromise];
      }
      r := Settle(sdkPromise.value);
    }

    method InitializeFhe(env: Env, provider: Option<Provider>) returns (r: Result<Instance, FheError>)
      requires Valid()
      modifies this
      ensures Valid()
      ensures var spec := InitializeSpec(old(State()), env, provider);
        r == spec.result && State() == spec.state && calls == old(calls) + spec.calls
    {
      if instance.Some? {
        return Success(instance.value);
      }
      if !env.browser {
        return Failure(NoBrowser);
      }
      var network := FirstProvider([provider] + env.walletProviders);
      if network.None? {
        return Failure(NoProvider);
      }
      ghost var s0 := State();
      var loaded := LoadSdk(env);
      ghost var load := LoadSdkSpec(s0, env);
      ghost var middle := calls;
      r := CreateInstanceAfterLoad(loaded, env, network.value);
      ghost var rest := AfterSdkLoad(load.result, load.state, env, network.value);
      assert calls == middle + rest.calls;
      assert calls == old(calls) + (load.calls + rest.calls);
    }

    /** initSDK and createInstance, once loadSdk has settled with `loaded`. */
    method CreateInstanceAfterLoad(loaded: Result<(), FheError>, env: Env, network: Provider) returns (r: Result<Instance, FheError>)
      requires Valid()
      modifies this
      ensures Valid()
      ensures var spec := AfterSdkLoad(loaded, old(State()), env, network);
        r == spec.result && State() == spec.state && calls == old(calls) + spec.calls
    {
      if loaded.Failure? {
        return Failure(loaded.error);
      }
      SdkLoadsAppend(calls, [InitSdk]);
      calls := calls + [InitSdk];
      if env.initSdk.Failure? {
        return Failure(InitSdkFailed(env.initSdk.error));
      }
      SdkLoadsAppend(calls, [CreateInstance(network)]);
      calls := calls + [CreateInstance(network)];
      match env.createInstance {
        case Failure(why) =>
          return Failure(CreateInstanceFailed(why));
        case Success(inst) =>
          instance := Some(inst);
          return Success(inst);
      }
    }

    method EncryptUint32(env: Env, value: JsNumber, contract: string, user: string) returns (r: Result<Payload, FheError>)
      requires Valid()
      modifies this
      ensures Valid()
      ensures var spec := EncryptUint32Spec(old(State()), env, value, contract, user);
        r == spec.result && State() == spec.state && calls == old(calls) + spec.calls
    {
      if OutOfUint32Range(value) {
        return Failure(OutOfRange);
      }
      var fhe := InitializeFhe(env, None);
      if fhe.Failure? {
        return Failure(fhe.error);
      }
      ghost var middle := calls;
      r := EncryptWithInstance(fhe.value, env, value, contract, user);
      assert calls == old(calls) + (InitializeSpec(old(State()), env, None).calls + calls[|middle|..]);
    }

    /** Checksums both addresses, encrypts `value` with `instance` and checks the output. */
    method EncryptWithInstance(instance: Instance, env: Env, value: JsNumber, contract: string, user: string) returns (r: Result<Payload, FheError>)
      requires Valid()
      modifies this
      ensures Valid()
      ensures var spec := EncryptWith(instance, old(State()), env, value, contract, user);
        r == spec.result && State() == spec.state && calls == old(calls) + spec.calls
    {
      var checksumContract := env.getAddress(contract);
      if checksumContract.Failure? {
        return Failure(InvalidAddress(checksumContract.error));
      }
      var checksumUser := env.getAddress(user);
      if checksumUser.Failure? {
        return Failure(InvalidAddress(checksumUser.error));
      }
      SdkLoadsAppend(calls, [EncryptInput(instance, checksumContract.value, checksumUser.value, value)]);
      calls := calls + [EncryptInput(instance, checksumContract.value, checksumUser.value, value)];
      var result := env.encrypt(instance, checksumContract.value, checksumUser.value, value);
      if result.Failure? {
        return Failure(EncryptFailed(result.error));
      }
      r := EnsureHandlePayload(result.value.handles, result.value.inputProof);
    }

    /** resetFheInstance (fhe.ts lines 201-204): forgets the instance; the SDK-loading promise is kept. */
    method ResetFheInstance()
      requires Valid()
      modifies this
      ensures Valid() && !IsFheInitialized()
      ensures State() == GatewayState(None, None, old(sdkPromise)) && calls == old(calls)
    {
      instance := None;
      instancePromise := None;
    }
  }
}
