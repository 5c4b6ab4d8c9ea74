/** The light-client contract over the flat string store it really uses: every key that it
    computes is a different string, and the store as a whole represents an abstract client. */
module FlatStore {
  import opened Wrappers
  import opened Types
  import opened LightClient

  // ----- decimal numbers -----

  function Digit(d: nat): char
    requires d < 10
  {
    "0123456789"[d]
  }

  function Digits(n: nat): (s: string)
    ensures |s| >= 1
    ensures '-' !in s && '/' !in s
  {
    if n < 10 then [Digit(n)] else Digits(n / 10) + [Digit(n % 10)]
  }

  function Value(c: char): nat {
    if '0' <= c <= '9' then (c - '0') as nat else 0
  }

  /** int(s) for the texts that the contract stores. */
  function Parse(s: string): nat {
    if s == [] then 0 else 10 * Parse(s[..|s| - 1]) + Value(s[|s| - 1])
  }

  lemma ParseSnoc(s: string, d: nat)
    requires d < 10
    ensures Parse(s + [Digit(d)]) == 10 * Parse(s) + d
  {
    var t := s + [Digit(d)];
    assert t[..|t| - 1] == s;
  }

  lemma {:induction false} ParseDigits(n: nat)
    ensures Parse(Digits(n)) == n
  {
    if n < 10 {
      ParseSnoc([], n);
      assert [] + [Digit(n)] == Digits(n);
    } else {
      ParseDigits(n / 10);
      ParseSnoc(Digits(n / 10), n % 10);
    }
  }

  /** A chain id may be negative. */
  function Dec(n: int): string {
    if n < 0 then "-" + Digits(-n) else Digits(n)
  }

  lemma DigitsInjective(a: nat, b: nat)
    requires Digits(a) == Digits(b)
    ensures a == b
  {
    ParseDigits(a);
    ParseDigits(b);
  }

  lemma SamePrefix(p: string, a: string, b: string)
    requires p + a == p + b
    ensures a == b
  {
    assert a == (p + a)[|p|..] && b == (p + b)[|p|..];
  }

  /** Only negative numbers start with a minus sign. */
  lemma Signed(a: int)
    ensures Dec(a) != "" && (Dec(a)[0] == '-' <==> a < 0)
  {
    if a >= 0 {
      assert Digits(a)[0] in Digits(a);
    }
  }

  lemma DecInjective(a: int, b: int)
    requires Dec(a) == Dec(b)
    ensures a == b
  {
    Signed(a);
    Signed(b);
    if a < 0 {
      SamePrefix("-", Digits(-a), Digits(-b));
      DigitsInjective(-a, -b);
    } else {
      DigitsInjective(a, b);
    }
  }

  // ----- keys -----

  datatype Key =
    | HeaderKey(pid: Pid, height: nat)
    | StateKey(pid: Pid, height: nat, idx: nat)
    | UvKey(height: nat)
    | ParaIdKey
    | ParaTypeKey
    | DelayKey(own: ChainClass, other: ChainClass, part: Part)

  function Name(c: ChainClass): (s: string)
    ensures '-' !in s
    ensures |s| >= 1
  {
    match c
    case Ethereum => "Ethereum"
    case Tendermint => "Tendermint"
    case Simple => "Simple"
    case Other(id) => "other" + Digits(id)
  }

  function PartName(p: Part): (s: string)
    ensures '-' !in s
  {
    if p.HeaderPart? then "header" else "state"
  }

  function Render(k: Key): string {
    match k
    case HeaderKey(pid, height) => "header-" + Dec(pid) + "-" + Digits(height)
    case StateKey(pid, height, idx) => "state-" + Dec(pid) + "-" + Digits(height) + "-" + Digits(idx)
    case UvKey(height) => "uv_exists_" + Digits(height)
    case ParaIdKey => "paraid"
    case ParaTypeKey => "paratype"
    case DelayKey(own, other, part) => Name(own) + "-" + Name(other) + "-" + PartName(part)
  }

  lemma NotLonger(mark: char, a: string, u: string, b: string, v: string)
    requires a + [mark] + u == b + [mark] + v && mark !in v
    ensures |v| <= |u|
  {
    var s := b + [mark] + v;
    assert s[|a|] == mark && |s| == |b| + 1 + |v| == |a| + 1 + |u|;
    assert forall i | |b| < i < |s| :: s[i] == v[i - |b| - 1];
  }

  /** What follows the last mark, and what comes before it. */
  lemma LastMark(mark: char, a: string, u: string, b: string, v: string)
    requires a + [mark] + u == b + [mark] + v && mark !in u && mark !in v
    ensures a == b && u == v
  {
    var s := a + [mark] + u;
    NotLonger(mark, a, u, b, v);
    NotLonger(mark, b, v, a, u);
    assert a == s[..|a|] && b == s[..|b|] && u == s[|a| + 1..] && v == s[|b| + 1..];
  }

  lemma HeaderKeys(p: Pid, h: nat, q: Pid, i: nat)
    requires Render(HeaderKey(p, h)) == Render(HeaderKey(q, i))
    ensures p == q && h == i
  {
    LastMark('-', "header-" + Dec(p), Digits(h), "header-" + Dec(q), Digits(i));
    SamePrefix("header-", Dec(p), Dec(q));
    DecInjective(p, q);
    ParseDigits(h);
    ParseDigits(i);
  }

  lemma StateKeys(p: Pid, h: nat, i: nat, q: Pid, g: nat, j: nat)
    requires Render(StateKey(p, h, i)) == Render(StateKey(q, g, j))
    ensures p == q && h == g && i == j
  {
    LastMark('-', "state-" + Dec(p) + "-" + Digits(h), Digits(i), "state-" + Dec(q) + "-" + Digits(g), Digits(j));
    LastMark('-', "state-" + Dec(p), Digits(h), "state-" + Dec(q), Digits(g));
    SamePrefix("state-", Dec(p), Dec(q));
    DecInjective(p, q);
    ParseDigits(h); ParseDigits(g);
    ParseDigits(i); ParseDigits(j);
  }

  lemma UvKeys(h: nat, i: nat)
    requires Render(UvKey(h)) == Render(UvKey(i))
    ensures h == i
  {
    SamePrefix("uv_exists_", Digits(h), Digits(i));
    ParseDigits(h);
    ParseDigits(i);
  }

  lemma NameInjective(a: ChainClass, b: ChainClass)
    requires Name(a) == Name(b)
    ensures a == b
  {
    assert Name(a)[0] == Name(b)[0];
    if a.Other? && b.Other? {
      SamePrefix("other", Digits(a.id), Digits(b.id));
      DigitsInjective(a.id, b.id);
    }
  }

  lemma DelayKeys(a: Key, b: Key)
    requires a.DelayKey? && b.DelayKey? && Render(a) == Render(b)
    ensures a == b
  {
    LastMark('-', Name(a.own) + "-" + Name(a.other), PartName(a.part), Name(b.own) + "-" + Name(b.other), PartName(b.part));
    LastMark('-', Name(a.own), Name(a.other), Name(b.own), Name(b.other));
    NameInjective(a.own, b.own);
    NameInjective(a.other, b.other);
    assert |PartName(a.part)| == |PartName(b.part)|;
  }

  /** The kinds of keys differ in their first character, but for two. */
  function First(k: Key): char {
    match k
    case HeaderKey(_, _) => 'h'
    case StateKey(_, _, _) => 's'
    case UvKey(_) => 'u'
    case ParaIdKey => 'p'
    case ParaTypeKey => 'p'
    case DelayKey(own, _, _) => Name(own)[0]
  }

  lemma FirstOf(k: Key)
    ensures |Render(k)| >= 1 && Render(k)[0] == First(k)
  {
  }

  lemma ParaKeys()
    ensures Render(ParaIdKey) != Render(ParaTypeKey)
  {
    assert |Render(ParaIdKey)| == 6 && |Render(ParaTypeKey)| == 8;
  }

  /** No two keys collide. */
  lemma KeysDiffer(a: Key, b: Key)
    requires a != b
    ensures Render(a) != Render(b)
  {
    if Render(a) == Render(b) {
      FirstOf(a);
      FirstOf(b);
      match a {
        case HeaderKey(p, h) => HeaderKeys(p, h, b.pid, b.height);
        case StateKey(p, h, i) => StateKeys(p, h, i, b.pid, b.height, b.idx);
        case UvKey(h) => UvKeys(h, b.height);
        case ParaIdKey => ParaKeys();
        case ParaTypeKey => ParaKeys();
        case DelayKey(_, _, _) => DelayKeys(a, b);
      }
    }
  }

  // ----- the store -----

  /** The stored texts: plain ones, and the JSON of a header entry and of a state. */
  datatype Entry = Text(text: string) | HeaderEntry(rec: HeaderRec) | StateEntry(state: Tx)

  class BaseStore {
    var data: map<string, Entry>

    constructor ()
      ensures data == map[]
    {
      data := map[];
    }

    method Set(key: string, value: Entry)
      modifies this
      ensures data == old(data)[key := value]
    {
      data := data[key := value];
    }

    method Get(key: string) returns (r: Option<Entry>)
      ensures r == Lookup(data, key)
    {
      r := if key in data then Some(data[key]) else None;
    }

    method HasKey(key: string) returns (r: bool)
      ensures r <==> Lookup(data, key).Some?
    {
      r := key in data.Keys;
    }

    method Len() returns (n: nat)
      ensures n == |data.Keys|
    {
      n := |data|;
    }
  }

  function Lookup(data: map<string, Entry>, key: string): Option<Entry> {
    if key in data then Some(data[key]) else None
  }

  /** The data after a list of writes. */
  function Replayed(data: map<string, Entry>, writes: seq<(string, Entry)>): map<string, Entry> {
    if writes == [] then data
    else
      var n := |writes| - 1;
      Replayed(data, writes[..n])[writes[n].0 := writes[n].1]
  }

  function KeysOf(writes: seq<(string, Entry)>): set<string> {
    set i | 0 <= i < |writes| :: writes[i].0
  }

  /** Whether write k is the last one of the key. */
  ghost predicate LastWrite(writes: seq<(string, Entry)>, k: nat, key: string) {
    k < |writes| && writes[k].0 == key && forall j | k < j < |writes| :: writes[j].0 != key
  }

  /** The keys are those written; so `len` is the number of different keys written. */
  lemma {:induction false} KeysWritten(writes: seq<(string, Entry)>)
    ensures Replayed(map[], writes).Keys == KeysOf(writes)
  {
    if writes != [] {
      var n := |writes| - 1;
      KeysWritten(writes[..n]);
      assert KeysOf(writes) == KeysOf(writes[..n]) + {writes[n].0};
    }
  }

  /** A key has the value that was written last. */
  lemma {:induction false} LastWriteWins(data: map<string, Entry>, writes: seq<(string, Entry)>, k: nat, key: string)
    requires LastWrite(writes, k, key)
    ensures Lookup(Replayed(data, writes), key) == Some(writes[k].1)
  {
    var n := |writes| - 1;
    if k < n {
      assert LastWrite(writes[..n], k, key);
      LastWriteWins(data, writes[..n], k, key);
    }
  }

  /** The delays that `init` writes, in milliseconds. */
  function Delay(own: ChainClass, other: ChainClass, part: Part): string
    requires HasDelay(own, other, part)
  {
    match (own, other, part)
    case (Ethereum, Tendermint, HeaderPart) => "13.2"
    case (Ethereum, Tendermint, StatePart) => "11.07"
    case (Ethereum, Ethereum, HeaderPart) => "25.5"
    case (Tendermint, Ethereum, HeaderPart) => "2.8"
    case (Tendermint, Tendermint, StatePart) => "1.5"
    case _ => "1"
  }

  /** What the abstract client keeps under a key. */
  function Content(c: Client, k: Key): Option<Entry> {
    match k
    case HeaderKey(pid, height) =>
      if height == 0 then (if pid in c.maxn then Some(Text(Digits(c.maxn[pid]))) else None)
      else if (pid, height) in c.headers then Some(HeaderEntry(c.headers[(pid, height)])) else None
    case StateKey(pid, height, idx) =>
      if (pid, height) !in c.states then None
      else if idx == 0 then Some(Text(Digits(|c.states[(pid, height)]|)))
      else if idx <= |c.states[(pid, height)]| then Some(StateEntry(c.states[(pid, height)][idx - 1]))
      else None
    case UvKey(height) => if height in c.uv then Some(Text("1")) else None
    case ParaIdKey => if c.paraid.Some? then Some(Text(c.paraid.value)) else None
    case ParaTypeKey => if c.paratype.Some? then Some(Text(Name(c.paratype.value))) else None
    case DelayKey(own, other, part) => if HasDelay(own, other, part) then Some(Text(Delay(own, other, part))) else None
  }

  /** The store holds the client, key by key. */
  ghost predicate Represents(data: map<string, Entry>, c: Client) {
    forall k: Key {:trigger Render(k)} :: Lookup(data, Render(k)) == Content(c, k)
  }

  /** One `set` is one change of the client. */
  lemma SetRepresents(data: map<string, Entry>, c: Client, k: Key, v: Entry, c': Client)
    requires Represents(data, c)
    requires Content(c', k) == Some(v) && forall j: Key | j != k :: Content(c', j) == Content(c, j)
    ensures Represents(data[Render(k) := v], c')
  {
    forall j: Key ensures Lookup(data[Render(k) := v], Render(j)) == Content(c', j) {
      if j != k {
        KeysDiffer(j, k);
      }
    }
  }

  lemma Held(data: map<string, Entry>, c: Client, k: Key)
    requires Represents(data, c)
    ensures Lookup(data, Render(k)) == Content(c, k)
  {
  }
}
