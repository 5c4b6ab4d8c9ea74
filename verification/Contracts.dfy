/** The contract's methods as they run on the store, against the abstract client. */
module Contracts {
  import opened Wrappers
  import opened Types
  import opened LightClient
  import opened FlatStore

  /** Two writes that together are one change of the client. */
  lemma SetTwice(data: map<string, Entry>, c: Client, k: Key, v: Entry, l: Key, w: Entry, c': Client)
    requires Represents(data, c) && k != l
    requires Content(c', k) == Some(v) && Content(c', l) == Some(w)
    requires forall j: Key | j != k && j != l :: Content(c', j) == Content(c, j)
    ensures Represents(data[Render(k) := v][Render(l) := w], c')
  {
    KeysDiffer(k, l);
    forall j: Key ensures Lookup(data[Render(k) := v][Render(l) := w], Render(j)) == Content(c', j) {
      if j != k { KeysDiffer(j, k); }
      if j != l { KeysDiffer(j, l); }
    }
  }

  /** The order in which `init` writes the delays. */
  function Rank(k: Key): nat
    requires k.DelayKey? && HasDelay(k.own, k.other, k.part)
  {
    if k.other == Simple then (if k.own == Tendermint then 8 else 9)
    else
      (if k.own == Ethereum then (if k.other == Tendermint then 0 else 2) else (if k.other == Ethereum then 4 else 6))
      + (if k.part == HeaderPart then 0 else 1)
  }

  lemma RankInjective(j: Key, k: Key)
    requires j.DelayKey? && HasDelay(j.own, j.other, j.part) && k.DelayKey? && HasDelay(k.own, k.other, k.part)
    requires Rank(j) == Rank(k)
    ensures j == k
  {
  }

  predicate Written(k: Key, n: nat) {
    k.DelayKey? && HasDelay(k.own, k.other, k.part) && Rank(k) < n
  }

  /** Of all keys the store holds just the first n delays. */
  ghost predicate HasOnly(data: map<string, Entry>, n: nat) {
    forall k: Key {:trigger Render(k)} ::
      Lookup(data, Render(k)) == if Written(k, n) then Some(Text(Delay(k.own, k.other, k.part))) else None
  }

  lemma SetDelay(data: map<string, Entry>, n: nat, k: Key)
    requires HasOnly(data, n) && Written(k, n + 1) && Rank(k) == n
    ensures HasOnly(data[Render(k) := Text(Delay(k.own, k.other, k.part))], n + 1)
  {
    forall j: Key
      ensures Lookup(data[Render(k) := Text(Delay(k.own, k.other, k.part))], Render(j))
              == if Written(j, n + 1) then Some(Text(Delay(j.own, j.other, j.part))) else None
    {
      if j != k {
        KeysDiffer(j, k);
        if Written(j, n + 1) && Rank(j) == n {
          RankInjective(j, k);
        }
      }
    }
  }

  lemma AllDelays(data: map<string, Entry>)
    requires HasOnly(data, 10)
    ensures Represents(data, FRESH)
  {
    forall k: Key ensures Lookup(data, Render(k)) == Content(FRESH, k) {
      assert Written(k, 10) <==> k.DelayKey? && HasDelay(k.own, k.other, k.part);
    }
  }

  /** A key that is none of the light client's. */
  ghost predicate Foreign(key: string) {
    forall k: Key {:trigger Render(k)} :: Render(k) != key
  }

  /** A digest is no key of the light client: none begins with a hexadecimal digit. */
  lemma DigestIsForeign(address: Address)
    ensures Foreign(address)
  {
    forall k: Key ensures Render(k) != address {
      FirstIsNoDigit(k);
      assert IsHexDigit(address[0]);
    }
  }

  lemma FirstIsNoDigit(k: Key)
    ensures |Render(k)| >= 1 && !IsHexDigit(Render(k)[0])
  {
    hide Render;
    FirstOf(k);
  }

  /** A write under a key that is none of the light client's leaves it as it is. */
  lemma ForeignWrite(data: map<string, Entry>, c: Client, key: string, v: Entry)
    requires Represents(data, c) && Foreign(key)
    ensures Represents(data[key := v], c)
  {
  }

  lemma StillNothing(data: map<string, Entry>, key: string, v: Entry)
    requires HasOnly(data, 0) && Foreign(key)
    ensures HasOnly(data[key := v], 0)
  {
  }

  /** The addresses of the two contracts are no keys of the light client. */
  lemma Addresses()
    ensures Foreign("base") && Foreign("lightclient")
  {
    forall k: Key ensures Render(k) != "base" && Render(k) != "lightclient" {
      FirstOf(k);
    }
  }

  class CtrLightClient {
    const store: BaseStore

    constructor (store: BaseStore)
      ensures this.store == store
    {
      this.store := store;
    }

    /** Writes the delays; a store that holds none of the contract's keys then represents the
        fresh client. */
    method Init()
      requires HasOnly(store.data, 0)
      modifies store
      ensures Represents(store.data, FRESH)
      ensures forall key | Foreign(key) :: Lookup(store.data, key) == Lookup(old(store.data), key)
    {
      hide Foreign, HasOnly, Represents;
      PutDelay(Ethereum, Tendermint, HeaderPart, "13.2", 0);
      PutDelay(Ethereum, Tendermint, StatePart, "11.07", 1);
      PutDelay(Ethereum, Ethereum, HeaderPart, "25.5", 2);
      PutDelay(Ethereum, Ethereum, StatePart, "1", 3);
      PutDelay(Tendermint, Ethereum, HeaderPart, "2.8", 4);
      PutDelay(Tendermint, Ethereum, StatePart, "1", 5);
      PutDelay(Tendermint, Tendermint, HeaderPart, "1", 6);
      PutDelay(Tendermint, Tendermint, StatePart, "1.5", 7);
      PutDelay(Tendermint, Simple, StatePart, "1", 8);
      PutDelay(Ethereum, Simple, StatePart, "1", 9);
      AllDelays(store.data);
    }

    method PutDelay(own: ChainClass, other: ChainClass, part: Part, ms: string, ghost n: nat)
      requires Written(DelayKey(own, other, part), n + 1) && Rank(DelayKey(own, other, part)) == n
      requires ms == Delay(own, other, part) && HasOnly(store.data, n)
      modifies store
      ensures HasOnly(store.data, n + 1)
      ensures forall key | Foreign(key) :: Lookup(store.data, key) == Lookup(old(store.data), key)
    {
      SetDelay(store.data, n, DelayKey(own, other, part));
      store.Set(Render(DelayKey(own, other, part)), Text(ms));
    }

    /** The verification delay at the end of a call: it raises when the chain's type or the
        delay is missing. */
    method Wait(other: ChainClass, part: Part, out: Out, ghost c: Client) returns (resp: Response)
      requires Represents(store.data, c)
      ensures resp == Respond(c, other, part, out)
    {
      Held(store.data, c, ParaTypeKey);
      var chaintype := store.Get(Render(ParaTypeKey));
      if chaintype.None? || !chaintype.value.Text? {
        return Response(0, NoParaType);
      }
      Held(store.data, c, DelayKey(c.paratype.value, other, part));
      var delay := store.Get(chaintype.value.text + "-" + Name(other) + "-" + PartName(part));
      if delay.None? {
        return Response(0, NoDelay);
      }
      resp := Response(1, out);
    }

    /** A counter, 0 when it is not there. */
    method Counter(k: Key, ghost c: Client, ghost n: nat) returns (cnt: nat)
      requires Represents(store.data, c)
      requires (Content(c, k) == None && n == 0) || Content(c, k) == Some(Text(Digits(n)))
      ensures cnt == n
    {
      Held(store.data, c, k);
      ParseDigits(n);
      var entry := store.Get(Render(k));
      cnt := if entry.Some? && entry.value.Text? then Parse(entry.value.text) else 0;
    }

    method HeaderSync(pid: Pid, class_: ChainClass, height: nat, header: Header, csHeight: nat, ghost c: Client) returns (resp: Response)
      requires Represents(store.data, c)
      modifies store
      ensures Represents(store.data, ExecHeaderSync(c, pid, class_, height, header, csHeight).0)
      ensures resp == ExecHeaderSync(c, pid, class_, height, header, csHeight).1
    {
      hide Represents;
      var cnt := Counter(HeaderKey(pid, 0), c, Maxn(c, pid));
      if cnt < height {
        cnt := height;
      }
      HeaderWrites(store.data, c, pid, height, header, csHeight, cnt);
      store.Set(Render(HeaderKey(pid, height)), HeaderEntry(HeaderRec(header, csHeight)));
      store.Set(Render(HeaderKey(pid, 0)), Text(Digits(cnt)));
      resp := Wait(class_, HeaderPart, HeaderStored(pid, height), ExecHeaderSync(c, pid, class_, height, header, csHeight).0);
    }

    /** The two writes of a header synchronisation: after the first, the header is there and the
        counter still lags; at height 0 both writes have the same key. */
    static lemma HeaderWrites(data: map<string, Entry>, c: Client, pid: Pid, height: nat, header: Header, csHeight: nat, cnt: nat)
      requires Represents(data, c) && cnt == if Maxn(c, pid) < height then height else Maxn(c, pid)
      ensures var once := data[Render(HeaderKey(pid, height)) := HeaderEntry(HeaderRec(header, csHeight))];
        && (height > 0 ==> Represents(once, WriteHeader(c, pid, height, header, csHeight)))
        && Represents(once[Render(HeaderKey(pid, 0)) := Text(Digits(cnt))], WriteMaxn(WriteHeader(c, pid, height, header, csHeight), pid, height))
    {
      var k, e, t := Render(HeaderKey(pid, height)), HeaderEntry(HeaderRec(header, csHeight)), Text(Digits(cnt));
      var c1 := WriteHeader(c, pid, height, header, csHeight);
      if height == 0 {
        assert data[k := e][k := t] == data[k := t];
        SetRepresents(data, c, HeaderKey(pid, 0), t, WriteMaxn(c1, pid, 0));
      } else {
        SetRepresents(data, c, HeaderKey(pid, height), e, c1);
        SetRepresents(data[k := e], c1, HeaderKey(pid, 0), t, WriteMaxn(c1, pid, height));
      }
    }

    method ValidateState(pid: Pid, class_: ChainClass, height: nat, state: Tx, ghost c: Client) returns (resp: Response)
      requires Represents(store.data, c) && LogsNotEmpty(c)
      modifies store
      ensures Represents(store.data, ExecValidateState(c, pid, class_, height, state).0)
      ensures resp == ExecValidateState(c, pid, class_, height, state).1
    {
      hide Represents;
      Held(store.data, c, HeaderKey(pid, height));
      var header := store.Get(Render(HeaderKey(pid, height)));
      if header.None? {
        return Response(0, MissingHeader(pid, height));
      }
      var cnt := Counter(StateKey(pid, height, 0), c, |StateLog(c, pid, height)|);
      cnt := cnt + 1;
      ghost var c1 := c.(states := c.states[(pid, height) := StateLog(c, pid, height) + [state]]);
      SetTwice(store.data, c, StateKey(pid, height, cnt), StateEntry(state), StateKey(pid, height, 0), Text(Digits(cnt)), c1);
      store.Set(Render(StateKey(pid, height, cnt)), StateEntry(state));
      store.Set(Render(StateKey(pid, height, 0)), Text(Digits(cnt)));
      resp := Wait(class_, StatePart, StateStored(pid, height, cnt), c1);
    }

    method AppInit(dstClass: ChainClass, height: nat, ghost c: Client) returns (resp: Response)
      requires Represents(store.data, c)
      modifies store
      ensures Represents(store.data, ExecAppInit(c, dstClass, height).0)
      ensures resp == ExecAppInit(c, dstClass, height).1
    {
      Held(store.data, c, ParaTypeKey);
      var chaintype := store.Get(Render(ParaTypeKey));
      if chaintype.None? || !chaintype.value.Text? {
        return Response(0, NoParaType);
      }
      if chaintype.value.text != Name(dstClass) {
        SetRepresents(store.data, c, UvKey(height), Text("1"), c.(uv := c.uv + {height}));
        store.Set(Render(UvKey(height)), Text("1"));
      } else {
        NameInjective(c.paratype.value, dstClass);
      }
      resp := Response(1, NoOut);
    }

    method SetParaId(id: string, ghost c: Client)
      requires Represents(store.data, c)
      modifies store
      ensures Represents(store.data, c.(paraid := Some(id)))
    {
      SetRepresents(store.data, c, ParaIdKey, Text(id), c.(paraid := Some(id)));
      store.Set(Render(ParaIdKey), Text(id));
    }

    method SetParaType(paratype: ChainClass, ghost c: Client)
      requires Represents(store.data, c)
      modifies store
      ensures Represents(store.data, c.(paratype := Some(paratype)))
    {
      SetRepresents(store.data, c, ParaTypeKey, Text(Name(paratype)), c.(paratype := Some(paratype)));
      store.Set(Render(ParaTypeKey), Text(Name(paratype)));
    }

    // ----- queries -----

    method QueryHeaderMaxn(pid: Pid, ghost c: Client) returns (n: nat)
      requires Represents(store.data, c)
      ensures n == Maxn(c, pid)
    {
      n := Counter(HeaderKey(pid, 0), c, Maxn(c, pid));
    }

    /** `_query_header` and what the connector makes of it: None when either raises. */
    method QueryHeaderCsHeight(pid: Pid, height: nat, ghost c: Client) returns (r: Option<nat>)
      requires Represents(store.data, c)
      ensures r == QueryCsHeight(c, pid, height)
    {
      Held(store.data, c, HeaderKey(pid, height));
      var entry := store.Get(Render(HeaderKey(pid, height)));
      r := if entry.Some? && entry.value.HeaderEntry? then Some(entry.value.rec.csHeight) else None;
    }

    /** A state by its index, which counts from 1; at index 0 the answer is the counter's text. */
    method QueryState(pid: Pid, height: nat, idx: nat, ghost c: Client) returns (r: Option<Entry>)
      requires Represents(store.data, c) && LogsNotEmpty(c)
      ensures r.None? <==> StateLog(c, pid, height) == [] || idx > |StateLog(c, pid, height)|
      ensures r.Some? ==> r.value == if idx == 0 then Text(Digits(|StateLog(c, pid, height)|)) else StateEntry(StateLog(c, pid, height)[idx - 1])
    {
      Held(store.data, c, StateKey(pid, height, idx));
      r := store.Get(Render(StateKey(pid, height, idx)));
    }

    method QueryUvExists(height: nat, ghost c: Client) returns (r: bool)
      requires Represents(store.data, c)
      ensures r <==> height in c.uv
    {
      Held(store.data, c, UvKey(height));
      r := store.HasKey(Render(UvKey(height)));
    }

    /** The dispatch on the function name; an illegal one, and arguments that do not fit, raise. */
    method Exec(call: Call, height: nat, ghost c: Client) returns (resp: Response)
      requires Represents(store.data, c) && LogsNotEmpty(c) && !call.NoContract? && !call.Deploy?
      modifies store
      ensures Represents(store.data, LightClient.Exec(c, call, height).0)
      ensures resp == LightClient.Exec(c, call, height).1
    {
      match call
      case AppInit(_, dstClass) => resp := AppInit(dstClass, height, c);
      case SetParaId(id) => SetParaId(id, c); resp := Response(1, NoOut);
      case SetParaType(paratype) => SetParaType(paratype, c); resp := Response(1, NoOut);
      case HeaderSync(pid, class_, h, header) => resp := HeaderSync(pid, class_, h, header, height, c);
      case ValidateState(pid, class_, h, state) => resp := ValidateState(pid, class_, h, state, c);
      case SetKeys => resp := Response(1, NoOut);
      case Malformed(_) => resp := Response(0, Raised);
    }
  }

  /** A state log exists only once a state is in it. */
  ghost predicate LogsNotEmpty(c: Client) {
    forall k | k in c.states :: c.states[k] != []
  }

  /** Any call keeps the logs that exist filled, and only ever appends to them. */
  lemma ExecKeepsLogs(c: Client, call: Call, height: nat)
    requires LogsNotEmpty(c) && !Crashes(call)
    ensures LogsNotEmpty(Exec(c, call, height).0)
    ensures forall p, h: nat :: StateLog(c, p, h) <= StateLog(Exec(c, call, height).0, p, h)
  {
  }
}
