/**
 The wallet provider adapter of src/services/wallet-provider-adapter.ts: its closure
 variables and the operations that await the wallet, any of which may be overtaken
 at any await.
*/
module ProviderAdapter {
  import opened Wrappers
  import opened SignIn

  datatype Failure =
    | Cancelled | InProgress | RequestRejected | ProviderUnavailable | AccountInvalid | ChainInvalid
    | ChainUnavailable | ContractWallet | ConnectionRequired | SignatureInvalid | CapabilityInvalid | CapabilityDisabled

  /** What a wallet request yields: a value of some shape, or an error with an own
      integer code if it has one. */
  datatype Json = Text(s: string) | Accounts(first: Option<string>) | OtherValue

  datatype Reply = Value(json: Json) | Thrown(code: Option<int>)

  datatype Connection = Connection(provider: nat, address: string)

  datatype Outcome =
    | Connected(provider: nat, address: string)
    | Signed(address: string, signature: string)
    | Discovered(providers: seq<nat>, legacy: Option<nat>)
    | Failed(why: Failure)

  /** Where an operation waits; `Finished` until its promise has settled. */
  datatype Progress =
    | Discovering(found: seq<nat>)
    | AskedAccounts(provider: nat)
    | AskedChain(provider: nat, address: string)
    | AskedSwitch(provider: nat, address: string)
    | AskedAdd(provider: nat, address: string)
    | AskedChainAgain(provider: nat, address: string)
    | AskedCode(provider: nat, address: string)
    | AskedSignature(connection: Connection)
    | Finished(outcome: Outcome)

  datatype ConnectFlight = ConnectFlight(attempt: nat, provider: nat)

  datatype SignFlight = SignFlight(attempt: nat, connection: Connection, message: string)

  datatype Adapter = Adapter(
    closed: bool, generation: nat, discoveryFlight: Option<nat>, connectionFlight: Option<ConnectFlight>,
    signatureFlight: Option<SignFlight>, connection: Option<Connection>)

  const COSTON2_CHAIN_ID := "0x72"

  predicate Address(s: string) { |s| == 42 && s[..2] == "0x" && forall c :: c in s[2..] ==> AnyHex(c) }

  predicate HexQuantity(s: string) {
    |s| >= 3 && s[..2] == "0x" && (s == "0x0" || s[2] != '0') && forall c :: c in s[2..] ==> LowerHex(c)
  }

  predicate Bytecode(s: string) {
    |s| >= 4 && |s| % 2 == 0 && s[..2] == "0x" && forall c :: c in s[2..] ==> AnyHex(c)
  }

  predicate Signature(s: string) { |s| == 132 && s[..2] == "0x" && forall c :: c in s[2..] ==> AnyHex(c) }

  // ----------------------------------------------------------- specifications

  function Begun(a: Adapter): Adapter {
    a.(generation := a.generation + 1, discoveryFlight := None, connectionFlight := None, signatureFlight := None)
  }

  predicate Current(a: Adapter, attempt: nat) { !a.closed && a.generation == attempt }

  datatype Capability = Unreadable | Invalid | Parsed(network: string)

  datatype Candidate = ThrowsOnRead | Provider(id: nat, valid: bool)

  /** What a call returns at once: a new operation, the promise of a running attempt, or
      a rejection. */
  datatype Begin = New(progress: Progress) | Shared(attempt: nat) | Refuse(why: Failure)

  function Connect(a: Adapter, capability: Capability, candidate: Candidate): (Adapter, Begin) {
    if a.closed then (a, Refuse(Cancelled))
    else if !capability.Parsed? then (a, Refuse(CapabilityInvalid))
    else if candidate.ThrowsOnRead? then (a, Refuse(ProviderUnavailable))
    else if a.connectionFlight.Some? then
      (a, if candidate.id == a.connectionFlight.value.provider && capability.network == "coston2"
          then Shared(a.connectionFlight.value.attempt) else Refuse(InProgress))
    else if capability.network != "coston2" then (a, Refuse(CapabilityDisabled))
    else if !candidate.valid then (a, Refuse(ProviderUnavailable))
    else
      var b := Begun(a);
      (b.(connection := None, connectionFlight := Some(ConnectFlight(b.generation, candidate.id))),
       New(AskedAccounts(candidate.id)))
  }

  /** The message is absent when it cannot be read or is not valid. */
  function SignMessage(a: Adapter, message: Option<string>): (Adapter, Begin) {
    if a.closed then (a, Refuse(Cancelled))
    else if a.connection.None? then (a, Refuse(ConnectionRequired))
    else if message.None? then (a, Refuse(SignatureInvalid))
    else if a.signatureFlight.Some? then
      (a, if a.signatureFlight.value.connection == a.connection.value &&
        a.signatureFlight.value.message == message.value
          then Shared(a.signatureFlight.value.attempt) else Refuse(InProgress))
    else
      var b := Begun(a);
      (b.(signatureFlight := Some(SignFlight(b.generation, b.connection.value, message.value))),
       New(AskedSignature(b.connection.value)))
  }

  function Discover(a: Adapter): (Adapter, Begin) {
    if a.closed then (a, Refuse(Cancelled))
    else if a.discoveryFlight.Some? then (a, Shared(a.discoveryFlight.value))
    else
      var b := Begun(a);
      (b.(discoveryFlight := Some(b.generation)), New(Discovering([])))
  }

  function CancelPending(a: Adapter): Adapter { if a.closed then a else Begun(a) }

  function Close(a: Adapter): Adapter { if a.closed then a else Begun(a).(closed := true, connection := None) }

  function ErrorFor(code: Option<int>): Failure {
    if code == Some(4001) then RequestRejected else ProviderUnavailable
  }

  /** How an operation goes on after a reply, while it is current. */
  function Proceed(p: Progress, reply: Reply): Progress {
    match p
    case AskedAccounts(provider) =>
      if reply.Thrown? then Finished(Failed(ErrorFor(reply.code)))
      else if reply.json.Accounts? && reply.json.first.Some? && Address(reply.json.first.value)
      then AskedChain(provider, "0x" + LowerAll(reply.json.first.value[2..]))
      else Finished(Failed(AccountInvalid))
    case AskedChain(provider, address) =>
      if reply.Thrown? then Finished(Failed(ErrorFor(reply.code)))
      else if !reply.json.Text? || !HexQuantity(reply.json.s) then Finished(Failed(ChainInvalid))
      else if reply.json.s == COSTON2_CHAIN_ID then AskedCode(provider, address)
      else AskedSwitch(provider, address)
    case AskedSwitch(provider, address) =>
      if reply.Value? then AskedChainAgain(provider, address)
      else if reply.code == Some(4902) then AskedAdd(provider, address)
      else Finished(Failed(ErrorFor(reply.code)))
    case AskedAdd(provider, address) =>
      if reply.Thrown? then Finished(Failed(ErrorFor(reply.code))) else AskedChainAgain(provider, address)
    case AskedChainAgain(provider, address) =>
      if reply.Thrown? then Finished(Failed(ErrorFor(reply.code)))
      else if reply.json != Text(COSTON2_CHAIN_ID) then Finished(Failed(ChainUnavailable))
      else AskedCode(provider, address)
    case AskedCode(provider, address) =>
      if reply.Thrown? then Finished(Failed(ErrorFor(reply.code)))
      else if reply.json == Text("0x") then Finished(Connected(provider, address))
      else if reply.json.Text? && Bytecode(reply.json.s) then Finished(Failed(ContractWallet))
      else Finished(Failed(ProviderUnavailable))
    case AskedSignature(c) =>
      if reply.Thrown? then Finished(Failed(ErrorFor(reply.code)))
      else if reply.json.Text? && Signature(reply.json.s) then Finished(Signed(c.address, reply.json.s))
      else Finished(Failed(SignatureInvalid))
    case _ => p
  }

  predicate AwaitsWallet(p: Progress) { !p.Discovering? && !p.Finished? }

  /** An await of a wallet request is over. */
  function Resume(a: Adapter, attempt: nat, p: Progress, reply: Reply): (Adapter, Progress) {
    if !AwaitsWallet(p) then (a, p)
    else if !Current(a, attempt) then (a, Finished(Failed(Cancelled)))
    else
      var next := Proceed(p, reply);
      (if next.Finished? && next.outcome.Connected?
       then a.(connection := Some(Connection(next.outcome.provider, next.outcome.address))) else a, next)
  }

  datatype Legacy = LegacyThrows | LegacyInvalid | LegacyProvider(id: nat)

  /** The discovery window is over; `port` says whether the browser port worked. */
  function EndDiscovery(a: Adapter, attempt: nat, p: Progress, port: bool, legacy: Legacy): Progress {
    if !p.Discovering? then p
    else if !Current(a, attempt) then Finished(Failed(Cancelled))
    else if !port then Finished(Failed(ProviderUnavailable))
    else if p.found != [] then Finished(Discovered(p.found, None))
    else match legacy
      case LegacyThrows => Finished(Failed(ProviderUnavailable))
      case LegacyInvalid => Finished(Discovered([], None))
      case LegacyProvider(id) => Finished(Discovered([], Some(id)))
  }

  function Announced(a: Adapter, attempt: nat, p: Progress, id: nat): Progress {
    if p.Discovering? && Current(a, attempt) && id !in p.found then Discovering(p.found + [id]) else p
  }

  /** The first handler after the operation fixes its outcome: connect and signMessage look
      there, for the last time, whether a failure was overtaken; discovery does not. */
  function Caught(a: Adapter, attempt: nat, outcome: Outcome, discovery: bool): Outcome {
    if outcome.Failed? && !discovery && !Current(a, attempt) then Failed(Cancelled) else outcome
  }

  /** The last handler gives up the flight, if it is still this attempt's. */
  function Released(a: Adapter, attempt: nat): Adapter {
    a.(discoveryFlight := if a.discoveryFlight == Some(attempt) then None else a.discoveryFlight,
       connectionFlight :=
         if a.connectionFlight.Some? && a.connectionFlight.value.attempt == attempt then None else a.connectionFlight,
       signatureFlight :=
         if a.signatureFlight.Some? && a.signatureFlight.value.attempt == attempt then None else a.signatureFlight)
  }

  // ---------------------------------------------------------------- the class

  class WalletProviderAdapter {
    var closed: bool
    var generation: nat
    var discoveryFlight: Option<nat>
    var connectionFlight: Option<ConnectFlight>
    var signatureFlight: Option<SignFlight>
    var connection: Option<Connection>

    constructor ()
      ensures View() == Adapter(false, 0, None, None, None, None)
    {
      closed, generation, discoveryFlight := false, 0, None;
      connectionFlight, signatureFlight, connection := None, None, None;
    }

    function View(): Adapter
      reads this
    {
      Adapter(closed, generation, discoveryFlight, connectionFlight, signatureFlight, connection)
    }

    method BeginAttempt() returns (attempt: nat)
      modifies this
      ensures View() == Begun(old(View())) && attempt == generation
    {
      generation := generation + 1;
      discoveryFlight, connectionFlight, signatureFlight := None, None, None;
      attempt := generation;
    }

    method DoConnect(capability: Capability, candidate: Candidate) returns (begin: Begin)
      modifies this
      ensures (View(), begin) == Connect(old(View()), capability, candidate)
    {
      if closed { return Refuse(Cancelled); }
      if !capability.Parsed? { return Refuse(CapabilityInvalid); }
      if candidate.ThrowsOnRead? { return Refuse(ProviderUnavailable); }
      if connectionFlight.Some? {
        if candidate.id == connectionFlight.value.provider && capability.network == "coston2" {
          return Shared(connectionFlight.value.attempt);
        }
        return Refuse(InProgress);
      }
      if capability.network != "coston2" { return Refuse(CapabilityDisabled); }
      if !candidate.valid { return Refuse(ProviderUnavailable); }
      var attempt := BeginAttempt();
      connection := None;
      connectionFlight := Some(ConnectFlight(attempt, candidate.id));
      begin := New(AskedAccounts(candidate.id));
    }

    method DoSignMessage(message: Option<string>) returns (begin: Begin)
      modifies this
      ensures (View(), begin) == SignMessage(old(View()), message)
    {
      if closed { return Refuse(Cancelled); }
      if connection.None? { return Refuse(ConnectionRequired); }
      if message.None? { return Refuse(SignatureInvalid); }
      if signatureFlight.Some? {
        if signatureFlight.value.connection == connection.value && signatureFlight.value.message == message.value {
          return Shared(signatureFlight.value.attempt);
        }
        return Refuse(InProgress);
      }
      var attempt := BeginAttempt();
      signatureFlight := Some(SignFlight(attempt, connection.value, message.value));
      begin := New(AskedSignature(connection.value));
    }

    method DiscoverProviders() returns (begin: Begin)
      modifies this
      ensures (View(), begin) == Discover(old(View()))
    {
      if closed { return Refuse(Cancelled); }
      if discoveryFlight.Some? { return Shared(discoveryFlight.value); }
      var attempt := BeginAttempt();
      discoveryFlight := Some(attempt);
      begin := New(Discovering([]));
    }

    method Cancel()
      modifies this
      ensures View() == CancelPending(old(View()))
    {
      if closed { return; }
      var _ := BeginAttempt();
    }

    method Shut()
      modifies this
      ensures View() == Close(old(View()))
    {
      if closed { return; }
      var _ := BeginAttempt();
      closed, connection := true, None;
    }

    method OnReply(attempt: nat, p: Progress, reply: Reply) returns (next: Progress)
      modifies this`connection
      ensures (View(), next) == Resume(old(View()), attempt, p, reply)
    {
      if !AwaitsWallet(p) { return p; }
      if closed || generation != attempt { return Finished(Failed(Cancelled)); }
      next := Proceed(p, reply);
      if next.Finished? && next.outcome.Connected? {
        connection := Some(Connection(next.outcome.provider, next.outcome.address));
      }
    }

    method OnCaught(attempt: nat, outcome: Outcome, discovery: bool) returns (result: Outcome)
      ensures result == Caught(View(), attempt, outcome, discovery)
    {
      if outcome.Failed? && !discovery {
        if closed || generation != attempt { return Failed(Cancelled); }
      }
      result := outcome;
    }

    method OnSettled(attempt: nat)
      modifies this
      ensures View() == Released(old(View()), attempt)
    {
      if discoveryFlight == Some(attempt) { discoveryFlight := None; }
      if connectionFlight.Some? && connectionFlight.value.attempt == attempt { connectionFlight := None; }
      if signatureFlight.Some? && signatureFlight.value.attempt == attempt { signatureFlight := None; }
    }
  }

  // --------------------------------------------------------------------- runs

  datatype Kind = DiscoverKind | ConnectKind | SignKind

  /** An operation: its kind, where it waits, the replies it has had while current, the
      outcome its first handler has fixed, and what its promise has settled as. */
  datatype Operation = Operation(kind: Kind, progress: Progress, replies: seq<(Progress, Reply)>,
      caught: Option<Outcome>, settled: Option<Outcome>)

  datatype World = World(a: Adapter, operations: map<nat, Operation>)

  datatype Step =
    | DoConnect(capability: Capability, candidate: Candidate)
    | DoSign(message: Option<string>)
    | DoDiscover
    | DoCancel
    | DoClose
    | Answer(attempt: nat, reply: Reply)
    | Announce(id: nat)
    | WindowOver(attempt: nat, port: bool, legacy: Legacy)
    | Catch(attempt: nat)
    | Deliver(attempt: nat)

  function Started(w: World, result: (Adapter, Begin), kind: Kind): World {
    World(result.0,
          if result.1.New? then w.operations[result.0.generation := Operation(kind, result.1.progress, [], None, None)]
          else w.operations)
  }

  function Next(w: World, step: Step): World {
    match step
    case DoConnect(capability, candidate) => Started(w, Connect(w.a, capability, candidate), ConnectKind)
    case DoSign(message) => Started(w, SignMessage(w.a, message), SignKind)
    case DoDiscover => Started(w, Discover(w.a), DiscoverKind)
    case DoCancel => w.(a := CancelPending(w.a))
    case DoClose => w.(a := Close(w.a))
    case Answer(attempt, reply) =>
      if attempt !in w.operations || !AwaitsWallet(w.operations[attempt].progress) then w
      else
        var o := w.operations[attempt];
        var (b, next) := Resume(w.a, attempt, o.progress, reply);
        World(b, w.operations[attempt := o.(progress := next, replies := o.replies + [(o.progress, reply)])])
    case Announce(id) =>
      w.(operations := map n | n in w.operations ::
           w.operations[n].(progress := Announced(w.a, n, w.operations[n].progress, id)))
    case WindowOver(attempt, port, legacy) =>
      if attempt !in w.operations then w
      else
        var o := w.operations[attempt];
        w.(operations := w.operations[attempt := o.(progress := EndDiscovery(w.a, attempt, o.progress, port, legacy))])
    case Catch(attempt) =>
      if attempt !in w.operations || !w.operations[attempt].progress.Finished? ||
        w.operations[attempt].caught.Some? then w
      else
        var o := w.operations[attempt];
        w.(operations := w.operations[attempt :=
             o.(caught := Some(Caught(w.a, attempt, o.progress.outcome, o.kind.DiscoverKind?)))])
    case Deliver(attempt) =>
      if attempt !in w.operations || w.operations[attempt].caught.None? || w.operations[attempt].settled.Some? then w
      else
        var o := w.operations[attempt];
        World(Released(w.a, attempt), w.operations[attempt := o.(settled := o.caught)])
  }

  function After(w: World, steps: seq<Step>): World
    decreases |steps|
  {
    if steps == [] then w else After(Next(w, steps[0]), steps[1..])
  }

  const Start := World(Adapter(false, 0, None, None, None, None), map[])

  // --------------------------------------------------------------- invariants

  /** The last chain id an operation has read. */
  function LastChain(replies: seq<(Progress, Reply)>): Option<Reply> {
    if replies == [] then None
    else
      var (p, reply) := replies[|replies| - 1];
      if p.AskedChain? || p.AskedChainAgain? then Some(reply) else LastChain(replies[..|replies| - 1])
  }

  /** The account the wallet offered first. */
  function FirstAccount(replies: seq<(Progress, Reply)>): Option<string> {
    if replies == [] || !replies[0].0.AskedAccounts? || !replies[0].1.Value? || !replies[0].1.json.Accounts? then None
    else replies[0].1.json.first
  }

  /** The evidence an operation has when it waits where it does. */
  predicate Evidence(o: Operation) {
    match o.progress
    case AskedAccounts(_) => o.replies == []
    case AskedChain(_, address) => OffersAddress(o.replies, address)
    case AskedSwitch(_, address) => OffersAddress(o.replies, address)
    case AskedAdd(_, address) => OffersAddress(o.replies, address)
    case AskedChainAgain(_, address) => OffersAddress(o.replies, address)
    case AskedCode(_, address) => OffersAddress(o.replies, address) &&
      LastChain(o.replies) == Some(Value(Text(COSTON2_CHAIN_ID)))
    case Finished(Connected(provider, address)) => Proven(o.replies, provider, address)
    case _ => true
  }

  predicate OffersAddress(replies: seq<(Progress, Reply)>, address: string) {
    var account := FirstAccount(replies);
    account.Some? && Address(account.value) && address == "0x" + LowerAll(account.value[2..])
  }

  /** A connection's evidence: the wallet offered the address, the last chain id read was
      Coston2's, and the code of the address, read last, was empty. */
  predicate Proven(replies: seq<(Progress, Reply)>, provider: nat, address: string) {
    replies != [] && OffersAddress(replies, address) &&
    LastChain(replies) == Some(Value(Text(COSTON2_CHAIN_ID))) &&
    replies[|replies| - 1] == (AskedCode(provider, address), Value(Text("0x")))
  }

  predicate KindOk(o: Operation) {
    match o.kind
    case DiscoverKind => o.progress.Discovering? ||
      (o.progress.Finished? && (o.progress.outcome.Discovered? || o.progress.outcome.Failed?))
    case ConnectKind =>
      !o.progress.Discovering? && !o.progress.AskedSignature? &&
      (o.progress.Finished? ==> o.progress.outcome.Connected? || o.progress.outcome.Failed?)
    case SignKind =>
      o.progress.AskedSignature? || (o.progress.Finished? && (o.progress.outcome.Signed? || o.progress.outcome.Failed?))
  }

  predicate SettledOk(o: Operation) {
    (o.caught.Some? ==>
      o.progress.Finished? && (o.caught.value == o.progress.outcome || o.caught.value == Failed(Cancelled)) &&
      (!o.progress.outcome.Failed? ==> o.caught.value == o.progress.outcome)) &&
    (o.settled.Some? ==> o.settled == o.caught)
  }

  ghost predicate OperationsOk(w: World) {
    forall n :: n in w.operations ==>
      n <= w.a.generation && KindOk(w.operations[n]) && Evidence(w.operations[n]) && SettledOk(w.operations[n])
  }

  ghost predicate FlightsOk(w: World) {
    (w.a.discoveryFlight.Some? ==>
      w.a.discoveryFlight.value == w.a.generation && w.a.connectionFlight.None? && w.a.signatureFlight.None?) &&
    (w.a.connectionFlight.Some? ==>
      w.a.connectionFlight.value.attempt == w.a.generation && w.a.signatureFlight.None?) &&
    (w.a.signatureFlight.Some? ==> w.a.signatureFlight.value.attempt == w.a.generation) &&
    (w.a.closed ==> w.a.connection.None?) &&
    (w.a.closed ==> w.a.discoveryFlight.None? && w.a.connectionFlight.None? && w.a.signatureFlight.None?)
  }

  /** An operation that finished with this connection. */
  predicate Earned(operations: map<nat, Operation>, c: Connection) {
    exists n :: n in operations && operations[n].progress == Finished(Connected(c.provider, c.address))
  }

  predicate ProvenBySome(operations: map<nat, Operation>, c: Connection) {
    exists n :: n in operations && Proven(operations[n].replies, c.provider, c.address)
  }

  /** A connection in the adapter was earned by an operation; the one a current signature
      is asked for is the one in the adapter. */
  ghost predicate ConnectionOk(w: World) {
    (w.a.connection.Some? ==> Earned(w.operations, w.a.connection.value)) &&
    (w.a.generation in w.operations && !w.a.closed && w.operations[w.a.generation].progress.AskedSignature? ==>
      w.a.connection == Some(w.operations[w.a.generation].progress.connection))
  }

  ghost predicate WorldOk(w: World) { OperationsOk(w) && FlightsOk(w) && ConnectionOk(w) }

  lemma {:induction false} Extended(replies: seq<(Progress, Reply)>, p: Progress, reply: Reply)
    ensures LastChain(replies + [(p, reply)]) == if p.AskedChain? ||
      p.AskedChainAgain? then Some(reply) else LastChain(replies)
    ensures replies != [] ==> FirstAccount(replies + [(p, reply)]) == FirstAccount(replies)
  {
    assert (replies + [(p, reply)])[..|replies|] == replies;
  }

  lemma {:induction false} ProceedEvidence(o: Operation, reply: Reply)
    requires Evidence(o) && AwaitsWallet(o.progress) && KindOk(o)
    ensures var next := o.(progress := Proceed(o.progress, reply), replies := o.replies + [(o.progress, reply)]);
      Evidence(next) && KindOk(next)
  {
    hide Address, HexQuantity, Bytecode, Signature, LowerAll, LastChain;
    Extended(o.replies, o.progress, reply);
  }

  lemma {:induction false} AnswerKeeps(w: World, attempt: nat, reply: Reply)
    requires WorldOk(w)
    ensures WorldOk(Next(w, Answer(attempt, reply)))
  {
    hide Proceed, Evidence, KindOk;
    if attempt in w.operations && AwaitsWallet(w.operations[attempt].progress) {
      var o := w.operations[attempt];
      var t := Next(w, Answer(attempt, reply));
      if Current(w.a, attempt) {
        ProceedEvidence(o, reply);
        ProceedShape(o, reply);
        if t.a.connection != w.a.connection {
          assert t.operations[attempt].progress ==
            Finished(Connected(t.a.connection.value.provider, t.a.connection.value.address));
        }
      } else {
        CancelledOk(o, reply);
      }
      KeepsEarned(w, t, attempt);
    }
  }

  lemma {:induction false} KeepsEarned(w: World, t: World, attempt: nat)
    requires w.a.connection.Some? ==> Earned(w.operations, w.a.connection.value)
    requires attempt in w.operations && !w.operations[attempt].progress.Finished?
    requires attempt in t.operations && t.operations == w.operations[attempt := t.operations[attempt]]
    ensures w.a.connection.Some? ==> Earned(t.operations, w.a.connection.value)
  {
    if w.a.connection.Some? {
      var n :| n in w.operations &&
        w.operations[n].progress == Finished(Connected(w.a.connection.value.provider, w.a.connection.value.address));
      assert t.operations[n].progress == w.operations[n].progress;
    }
  }

  lemma {:induction false} CancelledOk(o: Operation, reply: Reply)
    requires KindOk(o)
    ensures var next := o.(progress := Finished(Failed(Cancelled)), replies := o.replies + [(o.progress, reply)]);
      Evidence(next) && KindOk(next)
  {
  }

  lemma {:induction false} ProceedShape(o: Operation, reply: Reply)
    requires KindOk(o) && AwaitsWallet(o.progress)
    ensures !Proceed(o.progress, reply).AskedSignature? && !Proceed(o.progress, reply).Discovering?
  {
    hide Address, HexQuantity, Bytecode, Signature, LowerAll;
  }

  lemma {:induction false} BeginKeeps(w: World, step: Step)
    requires WorldOk(w) && (step.DoConnect? || step.DoSign? || step.DoDiscover? || step.DoCancel? || step.DoClose?)
    ensures WorldOk(Next(w, step))
  {
    hide KindOk, Evidence, SettledOk, Earned, Address;
    var t := Next(w, step);
    if t.operations != w.operations {
      NewIsOk(t.operations[t.a.generation]);
      assert t.operations == w.operations[t.a.generation := t.operations[t.a.generation]];
    }
    EarnedStays(w, t);
  }

  lemma {:induction false} NewIsOk(o: Operation)
    requires o.caught.None? && o.settled.None? && o.replies == []
    requires match o.kind
      case DiscoverKind => o.progress.Discovering?
      case ConnectKind => o.progress.AskedAccounts?
      case SignKind => o.progress.AskedSignature?
    ensures KindOk(o) && Evidence(o) && SettledOk(o)
  {
  }

  lemma {:induction false} Unchanged(w: World, n: nat)
    requires OperationsOk(w) && n in w.operations
    ensures n <= w.a.generation && KindOk(w.operations[n]) && Evidence(w.operations[n]) && SettledOk(w.operations[n])
  {
  }

  lemma {:induction false} AnnounceKeeps(w: World, id: nat)
    requires WorldOk(w)
    ensures WorldOk(Next(w, Announce(id)))
  {
    hide Evidence, KindOk;
    var t := Next(w, Announce(id));
    forall n | n in t.operations
      ensures KindOk(t.operations[n]) && Evidence(t.operations[n]) && SettledOk(t.operations[n])
    {
      Unchanged(w, n);
      if t.operations[n] != w.operations[n] { DiscoveryOk(w.operations[n], t.operations[n].progress); }
    }
    if t.a.connection.Some? {
      var n :| n in w.operations &&
        w.operations[n].progress == Finished(Connected(w.a.connection.value.provider, w.a.connection.value.address));
      assert t.operations[n] == w.operations[n];
    }
  }

  lemma {:induction false} DiscoveryOk(o: Operation, next: Progress)
    requires o.progress.Discovering? && KindOk(o)
    requires next.Discovering? || (next.Finished? && (next.outcome.Discovered? || next.outcome.Failed?))
    ensures KindOk(o.(progress := next)) && Evidence(o.(progress := next))
  {
  }

  lemma {:induction false} WindowKeeps(w: World, attempt: nat, port: bool, legacy: Legacy)
    requires WorldOk(w)
    ensures WorldOk(Next(w, WindowOver(attempt, port, legacy)))
  {
    hide Evidence, KindOk;
    if attempt in w.operations && w.operations[attempt].progress.Discovering? {
      var t := Next(w, WindowOver(attempt, port, legacy));
      DiscoveryOk(w.operations[attempt], t.operations[attempt].progress);
      KeepsEarned(w, t, attempt);
    } else {
      assert Next(w, WindowOver(attempt, port, legacy)).operations == w.operations;
    }
  }

  /** Handling and settling change neither where an operation stands nor its evidence. */
  lemma {:induction false} SameStanding(o: Operation, p: Operation)
    requires p == o.(caught := p.caught, settled := p.settled) && KindOk(o) && Evidence(o)
    ensures KindOk(p) && Evidence(p)
  {
  }

  lemma {:induction false} EarnedStays(w: World, t: World)
    requires w.operations.Keys <= t.operations.Keys
    requires forall n :: n in w.operations ==> t.operations[n].progress == w.operations[n].progress
    ensures forall c :: Earned(w.operations, c) ==> Earned(t.operations, c)
  {
    forall c | Earned(w.operations, c) ensures Earned(t.operations, c) {
      var n :| n in w.operations && w.operations[n].progress == Finished(Connected(c.provider, c.address));
      assert t.operations[n].progress == w.operations[n].progress;
    }
  }

  lemma {:induction false} CatchKeeps(w: World, attempt: nat)
    requires WorldOk(w)
    ensures WorldOk(Next(w, Catch(attempt)))
  {
    hide KindOk, Evidence, Earned;
    var t := Next(w, Catch(attempt));
    if t != w {
      SameStanding(w.operations[attempt], t.operations[attempt]);
      EarnedStays(w, t);
    }
  }

  lemma {:induction false} DeliverKeeps(w: World, attempt: nat)
    requires WorldOk(w)
    ensures WorldOk(Next(w, Deliver(attempt)))
  {
    hide KindOk, Evidence, Earned;
    var t := Next(w, Deliver(attempt));
    if t != w {
      SameStanding(w.operations[attempt], t.operations[attempt]);
      EarnedStays(w, t);
    }
  }

  lemma {:induction false} WorldStep(w: World, step: Step)
    requires WorldOk(w)
    ensures WorldOk(Next(w, step))
  {
    hide WorldOk, Next;
    match step {
      case Answer(attempt, reply) => AnswerKeeps(w, attempt, reply);
      case Announce(id) => AnnounceKeeps(w, id);
      case WindowOver(attempt, port, legacy) => WindowKeeps(w, attempt, port, legacy);
      case Catch(attempt) => CatchKeeps(w, attempt);
      case Deliver(attempt) => DeliverKeeps(w, attempt);
      case _ => BeginKeeps(w, step);
    }
  }

  lemma {:induction false} WorldRun(w: World, steps: seq<Step>)
    requires WorldOk(w)
    ensures WorldOk(After(w, steps))
    decreases |steps|
  {
    hide WorldOk, Next;
    if steps != [] {
      WorldStep(w, steps[0]);
      WorldRun(Next(w, steps[0]), steps[1..]);
    }
  }

  lemma {:induction false} StartOk()
    ensures WorldOk(Start)
  {
  }

  // ----------------------------------------------------------------- theorems

  /** In every run a promise that resolved with a connection has the evidence for it, and
      the stored connection is always one that was so earned. */
  lemma {:induction false} ConnectionsAreProven(steps: seq<Step>, n: nat)
    ensures var w := After(Start, steps);
      (n in w.operations && w.operations[n].settled.Some? && w.operations[n].settled.value.Connected? ==>
        Proven(w.operations[n].replies, w.operations[n].settled.value.provider,
          w.operations[n].settled.value.address)) &&
      (w.a.connection.Some? ==> ProvenBySome(w.operations, w.a.connection.value))
  {
    hide Next, Proven;
    StartOk();
    WorldRun(Start, steps);
    var w := After(Start, steps);
    if w.a.connection.Some? {
      var m :| m in w.operations &&
        w.operations[m].progress == Finished(Connected(w.a.connection.value.provider, w.a.connection.value.address));
      assert Evidence(w.operations[m]);
    }
  }

  /** At the step that makes an operation succeed it is the newest one, the adapter is
      open, and the stored connection is the one it connected or signed with. */
  lemma {:induction false} SucceedsOnlyWhenNewest(steps: seq<Step>, n: nat, reply: Reply)
    requires var w := After(Start, steps);
      n in w.operations && AwaitsWallet(w.operations[n].progress) &&
      Next(w, Answer(n, reply)).operations[n].progress.Finished? &&
      !Next(w, Answer(n, reply)).operations[n].progress.outcome.Failed?
    ensures var t := Next(After(Start, steps), Answer(n, reply));
      t.a.generation == n && !t.a.closed && t.a.connection.Some? &&
      match t.operations[n].progress.outcome
      case Connected(provider, address) => t.a.connection.value == Connection(provider, address)
      case Signed(address, _) => t.a.connection.value.address == address
      case _ => false
  {
    hide Address, HexQuantity, Bytecode, Signature, LowerAll, Evidence;
    StartOk();
    WorldRun(Start, steps);
  }

  predicate Overtaken(w: World, n: nat) { w.a.closed || n < w.a.generation }

  /** An operation that has not finished when it is overtaken can only be cancelled. */
  predicate Doomed(o: Operation) {
    (o.progress.Finished? ==> o.progress.outcome == Failed(Cancelled)) &&
    (o.caught.Some? ==> o.caught.value == Failed(Cancelled)) &&
    (o.settled.Some? ==> o.settled.value == Failed(Cancelled))
  }

  lemma {:induction false} DoomedStep(w: World, step: Step, n: nat)
    requires n in w.operations && Overtaken(w, n) && Doomed(w.operations[n]) && n <= w.a.generation
    ensures var t := Next(w, step);
      n in t.operations && Overtaken(t, n) && Doomed(t.operations[n]) && n <= t.a.generation
  {
    hide Proceed;
  }

  /** In every continuation, whatever the wallet replies, an operation overtaken before it
      finished, by another operation, a cancellation or closing, settles as cancelled. */
  lemma {:induction false} OvertakenIsCancelled(w: World, steps: seq<Step>, n: nat)
    requires n in w.operations && Overtaken(w, n) && Doomed(w.operations[n]) && n <= w.a.generation
    ensures n in After(w, steps).operations
    ensures After(w, steps).operations[n].settled.Some? ==>
      After(w, steps).operations[n].settled.value == Failed(Cancelled)
    decreases |steps|
  {
    hide Next;
    if steps != [] {
      DoomedStep(w, steps[0], n);
      OvertakenIsCancelled(Next(w, steps[0]), steps[1..], n);
    }
  }

  /** What decides, at the moment an unsettled operation is overtaken, whether it will be
      cancelled: it has not finished, or it has failed and its first handler, which looks
      again, has not run, or it was cancelled already. */
  predicate WillCancel(o: Operation) {
    if o.caught.Some? then o.caught.value == Failed(Cancelled)
    else
      !o.progress.Finished? || o.progress.outcome == Failed(Cancelled) ||
      (o.progress.outcome.Failed? && !o.kind.DiscoverKind?)
  }

  predicate Decided(o: Operation, cancels: bool) {
    if o.settled.Some? then (o.settled.value == Failed(Cancelled)) == cancels else WillCancel(o) == cancels
  }

  lemma {:induction false} DecidedStep(w: World, step: Step, n: nat, cancels: bool)
    requires n in w.operations && Overtaken(w, n) && n <= w.a.generation && Decided(w.operations[n], cancels)
    ensures var t := Next(w, step);
      n in t.operations && Overtaken(t, n) && n <= t.a.generation && Decided(t.operations[n], cancels)
  {
    hide Proceed;
  }

  /** In every continuation in which an overtaken operation settles, whatever the wallet
      replies and whatever else is started, it settles as cancelled if and only if it was
      to be cancelled when it was overtaken. */
  lemma {:induction false} SettlesCancelledIff(w: World, steps: seq<Step>, n: nat)
    requires n in w.operations && Overtaken(w, n) && n <= w.a.generation && w.operations[n].settled.None?
    ensures n in After(w, steps).operations
    ensures var o := After(w, steps).operations[n];
      o.settled.Some? ==> (o.settled == Some(Failed(Cancelled)) <==> WillCancel(w.operations[n]))
  {
    DecidedRun(w, steps, n, WillCancel(w.operations[n]));
  }

  lemma {:induction false} DecidedRun(w: World, steps: seq<Step>, n: nat, cancels: bool)
    requires n in w.operations && Overtaken(w, n) && n <= w.a.generation && Decided(w.operations[n], cancels)
    ensures n in After(w, steps).operations && Decided(After(w, steps).operations[n], cancels)
    decreases |steps|
  {
    hide Next, Decided;
    if steps != [] {
      DecidedStep(w, steps[0], n, cancels);
      DecidedRun(Next(w, steps[0]), steps[1..], n, cancels);
    }
  }

  /** A discovery that failed and was overtaken before its promise settled is not cancelled. */
  lemma {:induction false} OvertakenDiscoveryFails()
    ensures var w := After(Start, [DoDiscover, WindowOver(1, false, LegacyInvalid), DoCancel]);
      1 in w.operations && Overtaken(w, 1) && w.operations[1].settled.None? &&
      Next(Next(w, Catch(1)), Deliver(1)).operations[1].settled == Some(Failed(ProviderUnavailable))
  {
    var steps := [DoDiscover, WindowOver(1, false, LegacyInvalid), DoCancel];
    var w1 := Next(Start, steps[0]);
    var w2 := Next(w1, steps[1]);
    AfterThree(Start, steps[0], steps[1], steps[2]);
    assert w1.operations[1].progress == Discovering([]);
    assert w2.operations[1].progress == Finished(Failed(ProviderUnavailable));
  }

  lemma {:induction false} AfterThree(w: World, a: Step, b: Step, c: Step)
    ensures After(w, [a, b, c]) == Next(Next(Next(w, a), b), c)
  {
    hide Next;
    assert [a, b, c][1..] == [b, c] && [b, c][1..] == [c] && [c][1..] == [];
    assert After(Next(Next(w, a), b), [c]) == Next(Next(Next(w, a), b), c);
    assert After(Next(w, a), [b, c]) == After(Next(Next(w, a), b), [c]);
  }

  /** The wallet answers a connect with this account, Coston2 and no code. */
  function Connecting(provider: nat, account: string): seq<Step> {
    [DoConnect(Parsed("coston2"), Provider(provider, true)), Answer(1, Value(Accounts(Some(account)))),
     Answer(1, Value(Text(COSTON2_CHAIN_ID)))]
  }

  /** A connect that finished and was overtaken before its promise settled still resolves. */
  lemma {:induction false} OvertakenConnectResolves(provider: nat, account: string)
    requires Address(account)
    ensures var w := After(After(Start, Connecting(provider, account)), [Answer(1, Value(Text("0x"))), DoCancel]);
      1 in w.operations && Overtaken(w, 1) && w.operations[1].settled.None? &&
      Next(Next(w, Catch(1)), Deliver(1)).operations[1].settled ==
        Some(Connected(provider, "0x" + LowerAll(account[2..])))
  {
    hide LowerAll;
    var steps := Connecting(provider, account);
    AfterThree(Start, steps[0], steps[1], steps[2]);
    var w1 := Next(Start, steps[0]);
    var w2 := Next(w1, steps[1]);
    assert w2.operations[1].progress == AskedChain(provider, "0x" + LowerAll(account[2..]));
    CostonIsQuantity();
    var w3 := Next(w2, steps[2]);
    assert w3.operations[1].progress == AskedCode(provider, "0x" + LowerAll(account[2..]));
    var w4 := Next(w3, Answer(1, Value(Text("0x"))));
    assert w4.operations[1].progress == Finished(Connected(provider, "0x" + LowerAll(account[2..])));
    assert [Answer(1, Value(Text("0x"))), DoCancel][1..] == [DoCancel];
    assert After(w4, [DoCancel]) == Next(w4, DoCancel);
    assert After(w3, [Answer(1, Value(Text("0x"))), DoCancel]) == After(w4, [DoCancel]);
  }

  lemma {:induction false} CostonIsQuantity()
    ensures HexQuantity(COSTON2_CHAIN_ID)
  {
  }

  /** A failure of connect or signMessage that is overtaken before its first handler runs is
      delivered as a cancellation. */
  lemma {:induction false} LateFailureIsCancelled(w: World, n: nat)
    requires n in w.operations && Overtaken(w, n) && !w.operations[n].kind.DiscoverKind? && n <= w.a.generation
    requires w.operations[n].progress.Finished? && w.operations[n].progress.outcome.Failed? &&
      w.operations[n].caught.None? && w.operations[n].settled.None?
    ensures Next(Next(w, Catch(n)), Deliver(n)).operations[n].settled == Some(Failed(Cancelled))
  {
  }

  /** Once the first handler has run the outcome is fixed: in every continuation, overtaken
      or not, the promise settles as that handler left it. */
  lemma {:induction false} CaughtIsFinal(w: World, steps: seq<Step>, n: nat)
    requires n in w.operations && n <= w.a.generation && w.operations[n].caught.Some?
    requires w.operations[n].settled.Some? ==> w.operations[n].settled == w.operations[n].caught
    ensures n in After(w, steps).operations
    ensures var o := After(w, steps).operations[n];
      o.caught == w.operations[n].caught && (o.settled.Some? ==> o.settled == w.operations[n].caught)
    decreases |steps|
  {
    hide Next;
    if steps != [] {
      CaughtStep(w, steps[0], n);
      CaughtIsFinal(Next(w, steps[0]), steps[1..], n);
    }
  }

  lemma {:induction false} CaughtStep(w: World, step: Step, n: nat)
    requires n in w.operations && n <= w.a.generation && w.operations[n].caught.Some?
    requires w.operations[n].settled.Some? ==> w.operations[n].settled == w.operations[n].caught
    ensures var t := Next(w, step);
      n in t.operations && n <= t.a.generation && t.operations[n].caught == w.operations[n].caught &&
      (t.operations[n].settled.Some? ==> t.operations[n].settled == t.operations[n].caught)
  {
    hide Proceed, EndDiscovery;
  }

  /** A connect whose rejection has been caught and that is overtaken before its promise
      settles keeps the rejection. */
  lemma {:induction false} CaughtFailureIsKept(provider: nat)
    ensures var w := Next(After(Start, [DoConnect(Parsed("coston2"), Provider(provider, true)),
        Answer(1, Thrown(Some(4001))), Catch(1)]), DoCancel);
      1 in w.operations && Overtaken(w, 1) && w.operations[1].settled.None? &&
      Next(w, Deliver(1)).operations[1].settled == Some(Failed(RequestRejected))
  {
    var steps := [DoConnect(Parsed("coston2"), Provider(provider, true)), Answer(1, Thrown(Some(4001))), Catch(1)];
    AfterThree(Start, steps[0], steps[1], steps[2]);
    var w1 := Next(Start, steps[0]);
    var w2 := Next(w1, steps[1]);
    assert w1.operations[1].progress == AskedAccounts(provider);
    assert w2.operations[1].progress == Finished(Failed(RequestRejected));
  }

  /** At most one operation is in flight, and it is the newest; a closed adapter has none. */
  lemma {:induction false} OneFlight(steps: seq<Step>)
    ensures var a := After(Start, steps).a;
      (a.discoveryFlight.Some? ==>
        a.connectionFlight.None? && a.signatureFlight.None? && a.discoveryFlight.value == a.generation) &&
      (a.connectionFlight.Some? ==>
        a.discoveryFlight.None? && a.signatureFlight.None? && a.connectionFlight.value.attempt == a.generation) &&
      (a.signatureFlight.Some? ==>
        a.discoveryFlight.None? && a.connectionFlight.None? && a.signatureFlight.value.attempt == a.generation) &&
      (a.closed ==>
        a.connection.None? && a.discoveryFlight.None? && a.connectionFlight.None? && a.signatureFlight.None?)
  {
    hide Next, OperationsOk;
    StartOk();
    WorldRun(Start, steps);
  }

  // ------------------------------------------------------ undisturbed operations

  lemma {:induction false} AfterBoth(w: World, first: seq<Step>, rest: seq<Step>)
    ensures After(w, first + rest) == After(After(w, first), rest)
    decreases |first|
  {
    hide Next;
    if first == [] {
      assert first + rest == rest;
    } else {
      assert (first + rest)[1..] == first[1..] + rest;
      AfterBoth(Next(w, first[0]), first[1..], rest);
    }
  }

  lemma {:induction false} AfterOne(w: World, a: Step)
    ensures After(w, [a]) == Next(w, a)
  {
    hide Next;
    assert [a][1..] == [];
    assert After(Next(w, a), []) == Next(w, a);
  }

  lemma {:induction false} AfterTwo(w: World, a: Step, b: Step)
    ensures After(w, [a, b]) == Next(Next(w, a), b)
  {
    hide Next, After;
    assert [a, b] == [a] + [b];
    AfterBoth(w, [a], [b]);
    AfterOne(w, a);
    AfterOne(Next(w, a), b);
  }

  /** The wallet answers the requests of an operation one after another. */
  function Answers(n: nat, replies: seq<Reply>): seq<Step> {
    seq(|replies|, i requires 0 <= i < |replies| => Answer(n, replies[i]))
  }

  function Played(p: Progress, replies: seq<Reply>): Progress
    decreases |replies|
  {
    if replies == [] then p else Played(Proceed(p, replies[0]), replies[1..])
  }

  /** Each of the replies is waited for. */
  predicate AllAwaited(p: Progress, replies: seq<Reply>)
    decreases |replies|
  {
    replies == [] || (AwaitsWallet(p) && AllAwaited(Proceed(p, replies[0]), replies[1..]))
  }

  predicate Pristine(w: World, n: nat) {
    n in w.operations && Current(w.a, n) && w.operations[n].caught.None? && w.operations[n].settled.None?
  }

  lemma {:induction false} AnswersPlay(w: World, n: nat, replies: seq<Reply>)
    requires Pristine(w, n) && AllAwaited(w.operations[n].progress, replies)
    ensures var t := After(w, Answers(n, replies)); var p := Played(w.operations[n].progress, replies);
      Pristine(t, n) && t.operations[n].progress == p && t.operations[n].kind == w.operations[n].kind &&
      t.a == w.a.(connection := t.a.connection) &&
      (replies != [] && p.Finished? && p.outcome.Connected? ==>
        t.a.connection == Some(Connection(p.outcome.provider, p.outcome.address)))
    decreases |replies|
  {
    hide Proceed;
    if replies != [] {
      assert Answers(n, replies)[0] == Answer(n, replies[0]) && Answers(n, replies)[1..] == Answers(n, replies[1..]);
      AnswersPlay(Next(w, Answer(n, replies[0])), n, replies[1..]);
    }
  }

  /** A finished operation that is still current delivers its own outcome. */
  lemma {:induction false} OutcomeIsDelivered(w: World, n: nat)
    requires Pristine(w, n) && w.operations[n].progress.Finished?
    ensures var t := After(w, [Catch(n), Deliver(n)]);
      n in t.operations && t.operations[n].settled == Some(w.operations[n].progress.outcome) &&
      t.a == Released(w.a, n)
  {
    AfterTwo(w, Catch(n), Deliver(n));
  }

  /** How the wallet comes to Coston2: it is there, it switches, or it adds the chain first. */
  datatype Route = Already | Switched(chain: string, json: Json) | Added(chain: string, json: Json)

  predicate Possible(route: Route) { route.Already? || (HexQuantity(route.chain) && route.chain != "0x72") }

  function ConnectReplies(account: string, route: Route): seq<Reply> {
    [Value(Accounts(Some(account)))] +
    (match route
     case Already => [Value(Text("0x72"))]
     case Switched(chain, json) => [Value(Text(chain)), Value(json), Value(Text("0x72"))]
     case Added(chain, json) => [Value(Text(chain)), Thrown(Some(4902)), Value(json), Value(Text("0x72"))]) +
    [Value(Text("0x"))]
  }

  lemma {:induction false} PlayedBy(p: Progress, first: Reply, rest: seq<Reply>)
    ensures Played(p, [first] + rest) == Played(Proceed(p, first), rest)
    ensures AllAwaited(p, [first] + rest) <==> AwaitsWallet(p) && AllAwaited(Proceed(p, first), rest)
  {
    assert ([first] + rest)[1..] == rest;
  }

  lemma {:induction false} ConnectPlays(provider: nat, account: string, route: Route)
    requires Address(account) && Possible(route)
    ensures AllAwaited(AskedAccounts(provider), ConnectReplies(account, route))
    ensures Played(AskedAccounts(provider), ConnectReplies(account, route)) ==
      Finished(Connected(provider, "0x" + LowerAll(account[2..])))
  {
    hide LowerAll, Played, AllAwaited;
    var address := "0x" + LowerAll(account[2..]);
    hide Address;
    var code, coston := [Value(Text("0x"))], Value(Text("0x72"));
    CostonIsQuantity();
    PlayedBy(AskedCode(provider, address), code[0], []);
    assert code == [code[0]] + [];
    NothingPlayed(Finished(Connected(provider, address)));
    match route {
      case Already =>
        PlayedBy(AskedChain(provider, address), coston, code);
        PlayedBy(AskedAccounts(provider), Value(Accounts(Some(account))), [coston] + code);
        assert ConnectReplies(account, route) == [Value(Accounts(Some(account)))] + ([coston] + code);
      case Switched(chain, json) =>
        var again := [coston] + code;
        PlayedBy(AskedChainAgain(provider, address), coston, code);
        PlayedBy(AskedSwitch(provider, address), Value(json), again);
        PlayedBy(AskedChain(provider, address), Value(Text(chain)), [Value(json)] + again);
        PlayedBy(AskedAccounts(provider), Value(Accounts(Some(account))),
                 [Value(Text(chain))] + ([Value(json)] + again));
        assert ConnectReplies(account, route) ==
          [Value(Accounts(Some(account)))] + ([Value(Text(chain))] + ([Value(json)] + again));
      case Added(chain, json) =>
        var again := [coston] + code;
        var refused := Thrown(Some(4902));
        PlayedBy(AskedChainAgain(provider, address), coston, code);
        PlayedBy(AskedAdd(provider, address), Value(json), again);
        PlayedBy(AskedSwitch(provider, address), refused, [Value(json)] + again);
        PlayedBy(AskedChain(provider, address), Value(Text(chain)), [refused] + ([Value(json)] + again));
        PlayedBy(AskedAccounts(provider), Value(Accounts(Some(account))),
                 [Value(Text(chain))] + ([refused] + ([Value(json)] + again)));
        assert ConnectReplies(account, route) ==
          [Value(Accounts(Some(account)))] + ([Value(Text(chain))] + ([refused] + ([Value(json)] + again)));
    }
  }

  lemma {:induction false} NothingPlayed(p: Progress)
    ensures Played(p, []) == p && AllAwaited(p, [])
  {
  }

  /** In every reachable state of an open adapter without a connect under way, a connect to
      a valid provider whose wallet offers an account, comes to Coston2 on any route and has
      no code there resolves with that account, which becomes the connection. */
  lemma {:induction false} UndisturbedConnect(before: seq<Step>, provider: nat, account: string, route: Route)
    requires !After(Start, before).a.closed && After(Start, before).a.connectionFlight.None?
    requires Address(account) && Possible(route)
    ensures var w := After(Start, before); var n := w.a.generation + 1;
      var t := After(Next(w, DoConnect(Parsed("coston2"), Provider(provider, true))),
                     Answers(n, ConnectReplies(account, route)) + [Catch(n), Deliver(n)]);
      var address := "0x" + LowerAll(account[2..]);
      n in t.operations && t.operations[n].settled == Some(Connected(provider, address)) &&
      t.a.connection == Some(Connection(provider, address)) && t.a.connectionFlight.None?
  {
    hide LowerAll, Address, Played, AllAwaited, Proceed, ConnectReplies, Possible, After;
    var w := After(Start, before);
    var n := w.a.generation + 1;
    var u := Next(w, DoConnect(Parsed("coston2"), Provider(provider, true)));
    var replies := ConnectReplies(account, route);
    ConnectPlays(provider, account, route);
    SomeReplies(account, route);
    AnswersPlay(u, n, replies);
    var v := After(u, Answers(n, replies));
    OutcomeIsDelivered(v, n);
    AfterBoth(u, Answers(n, replies), [Catch(n), Deliver(n)]);
  }

  lemma {:induction false} SomeReplies(account: string, route: Route)
    ensures ConnectReplies(account, route) != []
  {
  }

  /** Likewise a signature request with a connection resolves with the signature the wallet
      gives, for the connected address. */
  lemma {:induction false} UndisturbedSign(before: seq<Step>, message: string, signature: string)
    requires var a := After(Start, before).a; !a.closed && a.connection.Some? && a.signatureFlight.None?
    requires Signature(signature)
    ensures var w := After(Start, before); var n := w.a.generation + 1;
      var t := After(Next(Next(w, DoSign(Some(message))), Answer(n, Value(Text(signature)))), [Catch(n), Deliver(n)]);
      n in t.operations && t.operations[n].settled == Some(Signed(w.a.connection.value.address, signature)) &&
      t.a.connection == w.a.connection && t.a.signatureFlight.None?
  {
    hide Signature, After;
    var w := After(Start, before);
    var n := w.a.generation + 1;
    var u := Next(w, DoSign(Some(message)));
    assert u.operations[n].progress == AskedSignature(w.a.connection.value);
    var v := Next(u, Answer(n, Value(Text(signature))));
    OutcomeIsDelivered(v, n);
  }

  /** The ids in the order of their first announcement. */
  function FirstSeen(found: seq<nat>, ids: seq<nat>): seq<nat>
    decreases |ids|
  {
    if ids == [] then found
    else FirstSeen(if ids[0] in found then found else found + [ids[0]], ids[1..])
  }

  function Announces(ids: seq<nat>): seq<Step> { seq(|ids|, i requires 0 <= i < |ids| => Announce(ids[i])) }

  lemma {:induction false} AnnouncesFind(w: World, n: nat, ids: seq<nat>)
    requires Pristine(w, n) && w.operations[n].progress.Discovering?
    ensures var t := After(w, Announces(ids));
      Pristine(t, n) && t.a == w.a && t.operations[n].kind == w.operations[n].kind &&
      t.operations[n].progress == Discovering(FirstSeen(w.operations[n].progress.found, ids))
    decreases |ids|
  {
    if ids != [] {
      assert Announces(ids)[0] == Announce(ids[0]) && Announces(ids)[1..] == Announces(ids[1..]);
      var t := Next(w, Announce(ids[0]));
      AnnouncesFind(t, n, ids[1..]);
    }
  }

  /** A discovery lists what was announced, each provider once in the order of its first
      announcement; only if nothing was, the browser's own wallet, if there is one. */
  lemma {:induction false} UndisturbedDiscovery(before: seq<Step>, ids: seq<nat>, legacy: Legacy)
    requires !After(Start, before).a.closed && After(Start, before).a.discoveryFlight.None?
    ensures var w := After(Start, before); var n := w.a.generation + 1;
      var t := After(Next(After(Next(w, DoDiscover), Announces(ids)), WindowOver(n, true, legacy)),
                     [Catch(n), Deliver(n)]);
      n in t.operations && t.a.discoveryFlight.None? &&
      t.operations[n].settled == Some(
        if ids != [] then Discovered(FirstSeen([], ids), None)
        else match legacy
          case LegacyThrows => Failed(ProviderUnavailable)
          case LegacyInvalid => Discovered([], None)
          case LegacyProvider(id) => Discovered([], Some(id)))
  {
    hide After, FirstSeen;
    var w := After(Start, before);
    var n := w.a.generation + 1;
    var u := Next(w, DoDiscover);
    AnnouncesFind(u, n, ids);
    SeenSome([], ids);
    var v := Next(After(u, Announces(ids)), WindowOver(n, true, legacy));
    OutcomeIsDelivered(v, n);
  }

  lemma {:induction false} SeenSome(found: seq<nat>, ids: seq<nat>)
    ensures |FirstSeen(found, ids)| >= |found|
    ensures ids != [] ==> FirstSeen(found, ids) != []
    ensures FirstSeen(found, []) == found
    decreases |ids|
  {
    if ids != [] {
      SeenSome(if ids[0] in found then found else found + [ids[0]], ids[1..]);
    }
  }

  /** While a connect is under way the same call joins it and any other is refused. */
  lemma {:induction false} ConnectIsShared(a: Adapter, provider: nat, other: nat, valid: bool, network: string)
    requires !a.closed && a.connectionFlight.None?
    ensures var (b, begin) := Connect(a, Parsed("coston2"), Provider(provider, true));
      begin == New(AskedAccounts(provider)) && b.connection.None? && Current(b, b.generation) &&
      Connect(b, Parsed("coston2"), Provider(provider, valid)) == (b, Shared(b.generation)) &&
      (other != provider || network != "coston2" ==>
        Connect(b, Parsed(network), Provider(other, valid)) == (b, Refuse(InProgress)))
  {
  }

  /** A connect starts exactly on an open adapter without one under way, for Coston2 and a
      valid provider; otherwise nothing changes and the reason is the first that applies. */
  lemma {:induction false} ConnectStartsIff(a: Adapter, capability: Capability, candidate: Candidate)
    ensures Connect(a, capability, candidate).1.New? <==>
      !a.closed && capability == Parsed("coston2") && candidate.Provider? && candidate.valid &&
      a.connectionFlight == None
    ensures !Connect(a, capability, candidate).1.New? ==> Connect(a, capability, candidate).0 == a
    ensures a.closed ==> Connect(a, capability, candidate).1 == Refuse(Cancelled)
    ensures !a.closed && !capability.Parsed? ==> Connect(a, capability, candidate).1 == Refuse(CapabilityInvalid)
    ensures !a.closed && capability.Parsed? && candidate.ThrowsOnRead? ==>
      Connect(a, capability, candidate).1 == Refuse(ProviderUnavailable)
    ensures !a.closed && capability.Parsed? && candidate.Provider? && a.connectionFlight.None? ==>
      (capability.network != "coston2" ==> Connect(a, capability, candidate).1 == Refuse(CapabilityDisabled)) &&
      (capability.network == "coston2" && !candidate.valid ==>
        Connect(a, capability, candidate).1 == Refuse(ProviderUnavailable))
  {
  }

  /** A signature request starts exactly on an open adapter with a connection, a valid message
      and none under way; during one, the same message under the same connection joins it and
      any other is refused. */
  lemma {:induction false} SignStartsIff(a: Adapter, message: Option<string>)
    ensures SignMessage(a, message).1.New? <==>
      !a.closed && a.connection.Some? && message.Some? && a.signatureFlight == None
    ensures !SignMessage(a, message).1.New? ==> SignMessage(a, message).0 == a
    ensures SignMessage(a, message).1.New? ==>
      SignMessage(a, message).0 == Begun(a).(signatureFlight :=
        Some(SignFlight(a.generation + 1, a.connection.value, message.value)))
    ensures a.closed ==> SignMessage(a, message).1 == Refuse(Cancelled)
    ensures !a.closed && a.connection.None? ==> SignMessage(a, message).1 == Refuse(ConnectionRequired)
    ensures !a.closed && a.connection.Some? && message.None? ==> SignMessage(a, message).1 == Refuse(SignatureInvalid)
    ensures !a.closed && a.connection.Some? && message.Some? && a.signatureFlight.Some? ==>
      var flight := a.signatureFlight.value;
      SignMessage(a, message).1 ==
        if flight.connection == a.connection.value && flight.message == message.value
        then Shared(flight.attempt) else Refuse(InProgress)
  {
  }

  /** A discovery starts on an open adapter unless one is under way, which it then joins. */
  lemma {:induction false} DiscoverStartsIff(a: Adapter)
    ensures Discover(a).1 ==
      if a.closed then Refuse(Cancelled)
      else if a.discoveryFlight.Some? then Shared(a.discoveryFlight.value) else New(Discovering([]))
    ensures Discover(a).0 ==
      if Discover(a).1.New? then Begun(a).(discoveryFlight := Some(a.generation + 1)) else a
  {
  }

  /** Cancelling overtakes every operation, frees all flights and keeps the connection. */
  lemma {:induction false} CancelOvertakesAll(w: World)
    requires WorldOk(w)
    ensures var t := Next(w, DoCancel);
      (forall n :: n in t.operations ==> Overtaken(t, n)) && t.operations == w.operations &&
      t.a.connection == w.a.connection && t.a.closed == w.a.closed &&
      t.a.discoveryFlight.None? && t.a.connectionFlight.None? && t.a.signatureFlight.None?
  {
    hide KindOk, Evidence, SettledOk, ConnectionOk;
  }

  /** Closing drops the connection, overtakes every operation and refuses every call after. */
  lemma {:induction false} CloseEndsAll(w: World, steps: seq<Step>, capability: Capability, candidate: Candidate,
      message: Option<string>)
    requires WorldOk(w)
    ensures var a := After(Next(w, DoClose), steps).a;
      a.closed && a == Next(w, DoClose).a && Connect(a, capability, candidate) == (a, Refuse(Cancelled)) &&
      SignMessage(a, message) == (a, Refuse(Cancelled)) && Discover(a) == (a, Refuse(Cancelled))
    ensures !w.a.closed ==>
      Next(w, DoClose).a.connection.None? && forall n :: n in w.operations ==> Overtaken(Next(w, DoClose), n)
  {
    hide KindOk, Evidence, SettledOk, ConnectionOk;
    ClosedStays(Next(w, DoClose), steps);
  }

  lemma {:induction false} ClosedStays(w: World, steps: seq<Step>)
    requires w.a.closed && w.a.discoveryFlight.None? && w.a.connectionFlight.None? && w.a.signatureFlight.None?
    ensures After(w, steps).a == w.a
    decreases |steps|
  {
    hide Proceed, EndDiscovery;
    if steps != [] {
      ClosedStays(Next(w, steps[0]), steps[1..]);
    }
  }

  /** An operation that settles late leaves the flight of a newer one alone; the newest one
      leaves none. */
  lemma {:induction false} LateDeliveryKeepsFlight(w: World, n: nat)
    requires WorldOk(w) && n in w.operations && w.operations[n].caught.Some? && w.operations[n].settled.None?
    ensures var a := Next(w, Deliver(n)).a;
      a.connection == w.a.connection && (n < w.a.generation ==> a == w.a) &&
      (n >= w.a.generation ==> a.discoveryFlight.None? && a.connectionFlight.None? && a.signatureFlight.None?)
  {
    hide KindOk, Evidence, SettledOk, ConnectionOk;
  }

  /** What each answer that is not the expected one is reported as. */
  lemma {:induction false} FailuresAreNamed(p: Progress, reply: Reply)
    requires AwaitsWallet(p)
    ensures reply == Thrown(Some(4001)) ==> Proceed(p, reply) == Finished(Failed(RequestRejected))
    ensures reply.Thrown? && reply.code !in {Some(4001), Some(4902)} ==>
      Proceed(p, reply) == Finished(Failed(ProviderUnavailable))
    ensures reply == Thrown(Some(4902)) ==>
      Proceed(p, reply) ==
        if p.AskedSwitch? then AskedAdd(p.provider, p.address) else Finished(Failed(ProviderUnavailable))
    ensures reply.Value? && p.AskedChainAgain? && reply.json != Text("0x72") ==>
      Proceed(p, reply) == Finished(Failed(ChainUnavailable))
    ensures reply.Value? && p.AskedCode? && reply.json != Text("0x") ==>
      Proceed(p, reply) == Finished(Failed(
        if reply.json.Text? && Bytecode(reply.json.s) then ContractWallet else ProviderUnavailable))
    ensures reply.Value? && p.AskedAccounts? && !reply.json.Accounts? ==>
      Proceed(p, reply) == Finished(Failed(AccountInvalid))
    ensures reply.Value? && p.AskedSignature? && !reply.json.Text? ==>
      Proceed(p, reply) == Finished(Failed(SignatureInvalid))
  {
    hide Address, HexQuantity, Signature, LowerAll;
  }

  // -------------------------------------------------------------------- shapes

  ghost predicate AfterPrefix(s: string, digits: string) { s == "0x" + digits }

  /** An address is 40 hex digits in any case after "0x". */
  lemma {:induction false} AddressIff(s: string)
    ensures Address(s) <==>
      exists digits :: AfterPrefix(s, digits) && |digits| == 40 && forall c :: c in digits ==> AnyHex(c)
  {
    if Address(s) { assert AfterPrefix(s, s[2..]); }
    if digits :| AfterPrefix(s, digits) && |digits| == 40 && forall c :: c in digits ==> AnyHex(c) {
      assert s[2..] == digits;
    }
  }

  /** A signature is 130 hex digits in any case after "0x". */
  lemma {:induction false} SignatureIff(s: string)
    ensures Signature(s) <==>
      exists digits :: AfterPrefix(s, digits) && |digits| == 130 && forall c :: c in digits ==> AnyHex(c)
  {
    if Signature(s) { assert AfterPrefix(s, s[2..]); }
    if digits :| AfterPrefix(s, digits) && |digits| == 130 && forall c :: c in digits ==> AnyHex(c) {
      assert s[2..] == digits;
    }
  }

  predicate WholeBytes(digits: string) {
    digits != [] && |digits| % 2 == 0 && forall c :: c in digits ==> AnyHex(c)
  }

  /** Code is whole bytes, at least one, as hex digits in any case after "0x". */
  lemma {:induction false} BytecodeIff(s: string)
    ensures Bytecode(s) <==> exists digits :: AfterPrefix(s, digits) && WholeBytes(digits)
  {
    hide AnyHex;
    if Bytecode(s) {
      assert AfterPrefix(s, s[2..]);
      assert |s| == |s[2..]| + 2;
    }
    if digits :| AfterPrefix(s, digits) && WholeBytes(digits) {
      assert s[2..] == digits && |s| == |digits| + 2;
    }
  }

  predicate Quantity(digits: string) {
    digits != [] && (digits[0] == '0' ==> digits == "0") && forall c :: c in digits ==> LowerHex(c)
  }

  /** A quantity is lower-case hex digits after "0x", without a leading zero unless it is zero. */
  lemma {:induction false} HexQuantityIff(s: string)
    ensures HexQuantity(s) <==> exists digits :: AfterPrefix(s, digits) && Quantity(digits)
  {
    if HexQuantity(s) { assert AfterPrefix(s, s[2..]); }
    if digits :| AfterPrefix(s, digits) && Quantity(digits) {
      assert s[2..] == digits && s[2] == digits[0];
    }
  }
}
