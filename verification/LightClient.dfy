/** The light-client contract over abstract state: per chain a header map and its maximum, per
    chain and height an append-only log of validated states. */
module LightClient {
  import opened Wrappers
  import opened Types

  datatype HeaderRec = HeaderRec(header: Header, csHeight: nat)

  datatype Client = Client(
    paraid: Option<string>,
    paratype: Option<ChainClass>,
    headers: map<(Pid, nat), HeaderRec>,
    maxn: map<Pid, nat>,
    states: map<(Pid, nat), seq<Tx>>,
    uv: set<nat>)

  const FRESH := Client(None, None, map[], map[], map[], {})

  datatype Part = HeaderPart | StatePart

  /** Which verification delays `init` writes into the store. */
  predicate HasDelay(own: ChainClass, other: ChainClass, part: Part) {
    !own.Other? && !other.Other? && own != Simple && (part == StatePart || other != Simple)
  }

  function Maxn(c: Client, pid: Pid): nat {
    if pid in c.maxn then c.maxn[pid] else 0
  }

  /** Whether the header key of (pid, height) holds anything: at height 0 it is the counter. */
  predicate HeaderVisible(c: Client, pid: Pid, height: nat) {
    if height == 0 then pid in c.maxn else (pid, height) in c.headers
  }

  /** The height at which a synced header was confirmed; None when the query raises. */
  function QueryCsHeight(c: Client, pid: Pid, height: nat): Option<nat> {
    if height > 0 && (pid, height) in c.headers then Some(c.headers[(pid, height)].csHeight) else None
  }

  /** The first store write of `_header_sync`. At height 0 the second write overwrites it. */
  function WriteHeader(c: Client, pid: Pid, height: nat, header: Header, csHeight: nat): Client {
    if height == 0 then c else c.(headers := c.headers[(pid, height) := HeaderRec(header, csHeight)])
  }

  /** The second store write of `_header_sync`. */
  function WriteMaxn(c: Client, pid: Pid, height: nat): Client {
    c.(maxn := c.maxn[pid := if Maxn(c, pid) < height then height else Maxn(c, pid)])
  }

  function Respond(c: Client, other: ChainClass, part: Part, out: Out): Response {
    if c.paratype.None? then Response(0, NoParaType)
    else if !HasDelay(c.paratype.value, other, part) then Response(0, NoDelay)
    else Response(1, out)
  }

  /** A failing call keeps what it wrote before it failed. */
  function ExecHeaderSync(c: Client, pid: Pid, class_: ChainClass, height: nat, header: Header, csHeight: nat): (Client, Response) {
    (WriteMaxn(WriteHeader(c, pid, height, header, csHeight), pid, height),
     Respond(c, class_, HeaderPart, HeaderStored(pid, height)))
  }

  function StateLog(c: Client, pid: Pid, height: nat): seq<Tx> {
    if (pid, height) in c.states then c.states[(pid, height)] else []
  }

  function ExecValidateState(c: Client, pid: Pid, class_: ChainClass, height: nat, state: Tx): (Client, Response) {
    if !HeaderVisible(c, pid, height) then (c, Response(0, MissingHeader(pid, height)))
    else
      var log := StateLog(c, pid, height) + [state];
      (c.(states := c.states[(pid, height) := log]),
       Respond(c, class_, StatePart, StateStored(pid, height, |log|)))
  }

  function ExecAppInit(c: Client, dstClass: ChainClass, height: nat): (Client, Response) {
    if c.paratype.None? then (c, Response(0, NoParaType))
    else (if c.paratype.value != dstClass then c.(uv := c.uv + {height}) else c, Response(1, NoOut))
  }

  /** One contract call executed in the block of the given height. */
  function Exec(c: Client, call: Call, height: nat): (Client, Response)
    requires !Crashes(call)
  {
    match call
    case AppInit(_, dstClass) => ExecAppInit(c, dstClass, height)
    case SetParaId(id) => (c.(paraid := Some(id)), Response(1, NoOut))
    case SetParaType(paratype) => (c.(paratype := Some(paratype)), Response(1, NoOut))
    case HeaderSync(pid, class_, h, header) => ExecHeaderSync(c, pid, class_, h, header, height)
    case ValidateState(pid, class_, h, state) => ExecValidateState(c, pid, class_, h, state)
    case SetKeys => (c, Response(1, NoOut))
    case Malformed(_) => (c, Response(0, Raised))
    case Deploy(code) => if code.FailingInit? then (c, Response(0, Raised)) else (c, Response(1, NoOut))
  }

  // ----- what a call changes -----

  /** A validated state goes to the end of the log of its header, whatever the call then answers, and
      nothing else changes; nothing at all when the header is not there. */
  lemma ValidationIsLogged(c: Client, pid: Pid, class_: ChainClass, h: nat, state: Tx, height: nat)
    ensures var c', there := Exec(c, ValidateState(pid, class_, h, state), height).0, if h == 0 then pid in c.maxn else (pid, h) in c.headers;
      && StateLog(c', pid, h) == (if there then StateLog(c, pid, h) + [state] else StateLog(c, pid, h))
      && (forall p, k: nat | (p, k) != (pid, h) :: StateLog(c', p, k) == StateLog(c, p, k))
      && c' == c.(states := c'.states) && (!there ==> c' == c)
  {
  }

  /** A synchronised header is stored with the height of the executing block, and the maximum of its
      chain is raised; nothing else changes. */
  lemma HeaderIsStored(c: Client, pid: Pid, class_: ChainClass, h: nat, header: Header, height: nat)
    ensures var c' := Exec(c, HeaderSync(pid, class_, h, header), height).0;
      && (h > 0 ==> (pid, h) in c'.headers && c'.headers[(pid, h)] == HeaderRec(header, height))
      && (forall k | k != (pid, h) || h == 0 :: k in c'.headers <==> k in c.headers)
      && (forall k | k in c.headers && (k != (pid, h) || h == 0) :: c'.headers[k] == c.headers[k])
      && Maxn(c', pid) >= h && Maxn(c', pid) >= Maxn(c, pid) && (Maxn(c', pid) == h || Maxn(c', pid) == Maxn(c, pid))
      && (forall p | p != pid :: (p in c'.maxn <==> p in c.maxn) && Maxn(c', p) == Maxn(c, p))
      && c' == c.(headers := c'.headers, maxn := c'.maxn)
  {
  }

  /** `app_init` on a chain of another class than the destination sets the flag of the executing block,
      and nothing else; the settings change by their own calls only. */
  lemma FlagsAndSettings(c: Client, call: Call, height: nat)
    requires !Crashes(call)
    ensures var c' := Exec(c, call, height).0;
      && (forall h: nat :: h in c'.uv <==> h in c.uv || (h == height && call.AppInit? && c.paratype.Some? && call.dstClass != c.paratype.value))
      && c'.paratype == (if call.SetParaType? then Some(call.paratype) else c.paratype)
      && c'.paraid == (if call.SetParaId? then Some(call.id) else c.paraid)
      && (!call.HeaderSync? ==> c'.headers == c.headers && c'.maxn == c.maxn)
      && (!call.ValidateState? ==> c'.states == c.states)
  {
  }

  /** The delays that `init` writes, one by one. */
  lemma TheTenDelays(own: ChainClass, other: ChainClass, part: Part)
    ensures var ten :=
        {(Ethereum, Tendermint, HeaderPart), (Ethereum, Tendermint, StatePart), (Ethereum, Ethereum, HeaderPart), (Ethereum, Ethereum, StatePart),
         (Tendermint, Ethereum, HeaderPart), (Tendermint, Ethereum, StatePart), (Tendermint, Tendermint, HeaderPart),
         (Tendermint, Tendermint, StatePart), (Tendermint, Simple, StatePart), (Ethereum, Simple, StatePart)};
      HasDelay(own, other, part) <==> (own, other, part) in ten
  {
  }
}
