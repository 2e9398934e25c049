// The DNS answer cache of dns/client.go: lifetimes, decay, the optimistic window and the two
// backends. Times are nanoseconds; a lifetime is a number of seconds.
module DnsCache {
  import opened Base

  const Second: nat := 1_000_000_000
  type uint32 = n: nat | n < 0x1_0000_0000

  const RcodeSuccess := 0
  const RcodeNameError := 3

  /** soa is the MINIMUM field when the record is an SOA; body stands for everything else. */
  datatype Record = Record(isOPT: bool, ttl: uint32, soa: Option<uint32>, body: string)
  datatype Message = Message(rcode: nat, answer: seq<Record>, ns: seq<Record>, extra: seq<Record>)

  // ---- lifetimes

  /** t is the least positive TTL of the records that are not OPT, or 0 when there is none. */
  ghost predicate LeastPositive(rs: seq<Record>, t: uint32) {
    && (forall r | r in rs && !r.isOPT && r.ttl > 0 :: 0 < t <= r.ttl)
    && (t > 0 ==> exists r | r in rs :: !r.isOPT && r.ttl == t)
  }

  /** Which of the records carries the least TTL does not depend on their order. */
  lemma LeastPositiveUnique(rs: seq<Record>, ss: seq<Record>, t: uint32, u: uint32)
    requires multiset(rs) == multiset(ss) && LeastPositive(rs, t) && LeastPositive(ss, u)
    ensures t == u
  {
    forall r ensures r in rs <==> r in ss { assert r in multiset(rs) <==> r in multiset(ss); }
  }

  ghost predicate HasSOA(m: Message) { exists r | r in m.ns :: r.soa.Some? }

  /** Section 5 of RFC 2308: a negative answer lives for the lesser of its first SOA record's TTL and MINIMUM. */
  ghost predicate NegativeTTL(m: Message, t: uint32) {
    exists k | 0 <= k < |m.ns| ::
      && m.ns[k].soa.Some? && (forall i | 0 <= i < k :: m.ns[i].soa.None?)
      && t <= m.ns[k].ttl && t <= m.ns[k].soa.value && (t == m.ns[k].ttl || t == m.ns[k].soa.value)
  }

  /** The lifetime of a message without RewriteTTL. */
  ghost predicate Lifetime(m: Message, t: uint32) {
    if m.answer == [] && HasSOA(m) then NegativeTTL(m, t) else LeastPositive(m.answer + m.ns + m.extra, t)
  }

  method ExtractNegativeTTL(m: Message) returns (r: Option<uint32>)
    ensures r.Some? <==> HasSOA(m)
    ensures r.Some? ==> NegativeTTL(m, r.value)
  {
    var k := 0;
    while k < |m.ns|
      invariant k <= |m.ns| && forall i | 0 <= i < k :: m.ns[i].soa.None?
    {
      if m.ns[k].soa.Some? {
        assert m.ns[k] in m.ns;
        return Some(if m.ns[k].ttl < m.ns[k].soa.value then m.ns[k].ttl else m.ns[k].soa.value);
      }
      k := k + 1;
    }
    r := None;
  }

  method ComputeTimeToLive(m: Message) returns (t: uint32)
    ensures Lifetime(m, t)
  {
    if m.answer == [] {
      var negative := ExtractNegativeTTL(m);
      if negative.Some? { return negative.value; }
    }
    t := 0;
    var rs := m.answer + m.ns + m.extra;
    var k := 0;
    while k < |rs|
      invariant k <= |rs| && LeastPositive(rs[..k], t)
    {
      var before := t;
      assert rs[..k + 1] == rs[..k] + [rs[k]];
      if !rs[k].isOPT && (t == 0 || (rs[k].ttl > 0 && rs[k].ttl < t)) {
        t := rs[k].ttl;
        assert t > 0 ==> rs[k] in rs[..k + 1];
      } else if t > 0 {
        var r :| r in rs[..k] && !r.isOPT && r.ttl == t;
        assert r in rs[..k + 1];
      }
      k := k + 1;
    }
    assert rs[..k] == rs;
  }

  // ---- rewriting TTLs in place

  function Rewritten(rs: seq<Record>, t: uint32): (out: seq<Record>)
    ensures |out| == |rs| && forall i | 0 <= i < |rs| :: out[i] == if rs[i].isOPT then rs[i] else rs[i].(ttl := t)
  {
    seq(|rs|, i requires 0 <= i < |rs| => if rs[i].isOPT then rs[i] else rs[i].(ttl := t))
  }

  function Normalized(m: Message, t: uint32): Message {
    m.(answer := Rewritten(m.answer, t), ns := Rewritten(m.ns, t), extra := Rewritten(m.extra, t))
  }

  /** Every record that is not OPT has TTL t. */
  ghost predicate AllLive(m: Message, t: uint32) {
    forall r | (r in m.answer || r in m.ns || r in m.extra) && !r.isOPT :: r.ttl == t
  }

  lemma NormalizedLives(m: Message, t: uint32)
    ensures AllLive(Normalized(m, t), t) && Normalized(m, t).rcode == m.rcode
    ensures forall u: uint32 :: Normalized(Normalized(m, t), u) == Normalized(m, u)
  {
    var n := Normalized(m, t);
    forall u: uint32 ensures Normalized(n, u) == Normalized(m, u) {
      assert Rewritten(n.answer, u) == Rewritten(m.answer, u);
      assert Rewritten(n.ns, u) == Rewritten(m.ns, u);
      assert Rewritten(n.extra, u) == Rewritten(m.extra, u);
    }
  }

  /** A response whose record headers are rewritten in place. */
  class Response {
    var rcode: nat
    var answer: array<Record>
    var ns: array<Record>
    var extra: array<Record>

    ghost predicate Apart()
      reads this
    {
      answer != ns && answer != extra && ns != extra
    }

    function Content(): Message
      reads this, answer, ns, extra
    {
      Message(rcode, answer[..], ns[..], extra[..])
    }

    method NormalizeTTL(t: uint32)
      requires Apart()
      modifies answer, ns, extra
      ensures Content() == Normalized(old(Content()), t)
    {
      RewriteSection(answer, t);
      RewriteSection(ns, t);
      RewriteSection(extra, t);
    }

    /** computeTimeToLive, RewriteTTL and normalizeTTL of applyResponseOptions. */
    method ApplyTTL(rewrite: Option<uint32>) returns (t: uint32)
      requires Apart()
      modifies answer, ns, extra
      ensures if rewrite.Some? then t == rewrite.value else Lifetime(old(Content()), t)
      ensures Content() == Normalized(old(Content()), t) && AllLive(Content(), t)
    {
      t := ComputeTimeToLive(Content());
      if rewrite.Some? { t := rewrite.value; }
      NormalizedLives(Content(), t);
      NormalizeTTL(t);
    }
  }

  method RewriteSection(a: array<Record>, t: uint32)
    modifies a
    ensures a[..] == Rewritten(old(a[..]), t)
  {
    var k := 0;
    while k < a.Length
      invariant k <= a.Length
      invariant forall i | 0 <= i < k :: a[i] == if old(a[i]).isOPT then old(a[i]) else old(a[i]).(ttl := t)
      invariant forall i | k <= i < a.Length :: a[i] == old(a[i])
    {
      if !a[k].isOPT { a[k] := a[k].(ttl := t); }
      k := k + 1;
    }
  }

  // ---- keys and their persistent address

  /** dnsCacheKey; the subnet is given by its text form. */
  datatype Key = Key(name: string, qtype: nat, qclass: nat, transport: string, subnet: Option<string>, environment: nat)

  /** Where the persistent backend keeps an answer. */
  datatype Address = Address(transport: string, name: string, qtype: nat)

  const Nul: char := '\0'
  const Soh: char := 1 as char

  function Digit(d: nat): char
    requires d < 36
  {
    if d < 10 then ('0' as int + d) as char else ('a' as int + d - 10) as char
  }

  /** strconv.FormatUint in base 36. */
  function Base36(n: nat): string {
    if n < 36 then [Digit(n)] else Base36(n / 36) + [Digit(n % 36)]
  }

  function Tail(k: Key): string { if k.environment != 0 then [Soh] + Base36(k.environment) else "" }
  function Middle(k: Key): string { if k.subnet.Some? then [Nul] + (k.subnet.value + Tail(k)) else Tail(k) }
  function PersistentName(k: Key): string { k.transport + Middle(k) }
  function AddressOf(k: Key): Address { Address(PersistentName(k), k.name, k.qtype) }

  predicate Separator(c: char) { c == Nul || c == Soh }
  predicate Clean(s: string) { forall i | 0 <= i < |s| :: !Separator(s[i]) }
  predicate Marked(s: string) { s != "" ==> Separator(s[0]) }

  /** Transport tags and subnet texts contain no separator. */
  predicate CleanKey(k: Key) { Clean(k.transport) && (k.subnet.Some? ==> Clean(k.subnet.value)) }

  lemma {:induction false} Base36Injective(a: nat, b: nat)
    requires Base36(a) == Base36(b)
    ensures a == b
    decreases a
  {
    var s, t := Base36(a), Base36(b);
    Base36Length(a);
    Base36Length(b);
    if a >= 36 && b >= 36 {
      assert s[..|s| - 1] == Base36(a / 36) && t[..|t| - 1] == Base36(b / 36);
      assert s[|s| - 1] == Digit(a % 36) && t[|t| - 1] == Digit(b % 36);
      Base36Injective(a / 36, b / 36);
    } else if a < 36 && b < 36 {
      assert s[0] == Digit(a) && t[0] == Digit(b);
    }
  }

  lemma Base36Length(a: nat)
    ensures |Base36(a)| > 0 && (|Base36(a)| > 1 <==> a >= 36)
  {
    if a >= 36 { Base36Length(a / 36); }
  }

  /** Text without separators, followed by nothing or by a separator, splits in one way. */
  lemma {:induction false} SplitUnique(a: string, x: string, b: string, y: string)
    requires Clean(a) && Clean(b) && Marked(x) && Marked(y) && a + x == b + y
    ensures a == b && x == y
  {
    assert a != "" ==> (a + x)[0] == a[0];
    assert b != "" ==> (b + y)[0] == b[0];
    assert a == "" ==> a + x == x;
    assert b == "" ==> b + y == y;
    if a != "" && b != "" {
      assert (a + x)[1..] == a[1..] + x && (b + y)[1..] == b[1..] + y;
      SplitUnique(a[1..], x, b[1..], y);
      assert a == [a[0]] + a[1..] && b == [b[0]] + b[1..];
    }
  }

  lemma TailInjective(k: Key, l: Key)
    requires Tail(k) == Tail(l)
    ensures k.environment == l.environment
  {
    if k.environment != 0 && l.environment != 0 {
      assert Tail(k)[1..] == Base36(k.environment) && Tail(l)[1..] == Base36(l.environment);
      Base36Injective(k.environment, l.environment);
    }
  }

  lemma MiddleInjective(k: Key, l: Key)
    requires CleanKey(k) && CleanKey(l) && Middle(k) == Middle(l)
    ensures k.subnet == l.subnet && k.environment == l.environment
  {
    assert k.subnet.Some? ==> Middle(k)[0] == Nul;
    assert l.subnet.Some? ==> Middle(l)[0] == Nul;
    assert k.subnet.None? && Middle(k) != "" ==> Middle(k)[0] == Soh;
    assert l.subnet.None? && Middle(l) != "" ==> Middle(l)[0] == Soh;
    if k.subnet.Some? {
      assert Middle(k)[1..] == k.subnet.value + Tail(k) && Middle(l)[1..] == l.subnet.value + Tail(l);
      SplitUnique(k.subnet.value, Tail(k), l.subnet.value, Tail(l));
    }
    TailInjective(k, l);
  }

  /** The number a string of base-36 digits stands for, most significant first. */
  function FromBase36(s: string): int {
    if s == "" then 0 else
    var c := s[|s| - 1];
    36 * FromBase36(s[..|s| - 1]) + if c <= '9' then c as int - '0' as int else c as int - 'a' as int + 10
  }

  lemma {:induction false} Base36Value(n: nat)
    ensures FromBase36(Base36(n)) == n
  {
    var s := Base36(n);
    if n >= 36 {
      Base36Value(n / 36);
      assert s[..|s| - 1] == Base36(n / 36);
    } else {
      assert s[..0] == "";
    }
  }

  /** The address on disk: the question's name and type, under the transport's tag, the subnet after a NUL if
      there is one, and the environment after an SOH unless it is zero. */
  lemma AddressLayout(k: Key)
    ensures AddressOf(k).name == k.name && AddressOf(k).qtype == k.qtype
    ensures AddressOf(k).transport ==
            k.transport + (if k.subnet.Some? then "\0" + k.subnet.value else "")
                        + (if k.environment != 0 then "\U{0001}" + Base36(k.environment) else "")
  {
    if k.subnet.Some? {
      assert Middle(k) == "\0" + k.subnet.value + Tail(k);
    } else {
      assert k.transport + "" == k.transport;
    }
  }

  /** Two keys share a persistent address exactly when they differ in nothing but the query class. */
  lemma AddressIgnoresClass(k: Key, l: Key)
    requires CleanKey(k) && CleanKey(l)
    ensures AddressOf(k) == AddressOf(l) <==> k == l.(qclass := k.qclass)
  {
    if AddressOf(k) == AddressOf(l) {
      SplitUnique(k.transport, Middle(k), l.transport, Middle(l));
      MiddleInjective(k, l);
    }
  }

  // ---- the two backends as maps

  datatype Entry = Entry(message: Message, storedAt: nat, lifetime: uint32)
  {
    function ExpireAt(): nat { storedAt + lifetime * Second }
  }

  datatype Config = Config(disableExpire: bool, optimistic: nat)

  datatype Loaded = Absent | Fresh(message: Message, ttl: nat) | Stale(message: Message)

  /** What a load answers for a message and its expiry: the whole seconds left, the optimistic window, or
      nothing. */
  function ServeUntil(cfg: Config, m: Message, expireAt: nat, now: nat): Loaded {
    if cfg.disableExpire then Fresh(m, 0)
    else if expireAt < now then
      if cfg.optimistic > 0 && now < expireAt + cfg.optimistic then Stale(Normalized(m, 1)) else Absent
    else
      var left := (expireAt - now) / Second;
      Fresh(Normalized(m, left % 0x1_0000_0000), left)
  }

  function Serve(cfg: Config, e: Entry, now: nat): Loaded { ServeUntil(cfg, e.message, e.ExpireAt(), now) }

  /** What is stored is worth serving: a definite answer, with the TTLs of its positive lifetime. */
  ghost predicate Sound(e: Entry) {
    && (e.message.rcode == RcodeSuccess || e.message.rcode == RcodeNameError)
    && e.lifetime > 0 && AllLive(e.message, e.lifetime)
  }

  /** What a client may be told about an entry kept until some time: a fresh answer never promises past
      that, a stale one only lives one second inside the optimistic window, both are the stored message with
      one TTL, and nothing is said only when the window is over. */
  ghost predicate Truthful(cfg: Config, e: Entry, until: nat, now: nat, r: Loaded) {
    match r
    case Fresh(m, ttl) =>
      if cfg.disableExpire then m == e.message && ttl == 0 && AllLive(m, e.lifetime) else
      && ttl <= e.lifetime && m == Normalized(e.message, ttl) && AllLive(m, ttl)
      && now + ttl * Second <= until < now + (ttl + 1) * Second
    case Stale(m) => m == Normalized(e.message, 1) && AllLive(m, 1) && until < now < until + cfg.optimistic
    case Absent => until < now && until + cfg.optimistic <= now
  }

  /** Every load is truthful, up to the expiry the backend kept. */
  lemma ServeRight(cfg: Config, e: Entry, until: nat, now: nat)
    requires Sound(e) && e.storedAt <= now && until <= e.ExpireAt()
    ensures Truthful(cfg, e, until, now, ServeUntil(cfg, e.message, until, now))
  {
    hide Normalized, AllLive;
    NormalizedLives(e.message, 1);
    if now <= until {
      var left := (until - now) / Second;
      SecondsLeft(until - now, e.lifetime);
      NormalizedLives(e.message, left);
    }
  }

  lemma SecondsLeft(gap: nat, lifetime: uint32)
    requires gap <= lifetime * Second
    ensures var left := gap / Second;
            left <= lifetime && left * Second <= gap < (left + 1) * Second && left % 0x1_0000_0000 == left
  {
  }

  /** The memory backend: entries beyond their window are removed on load. */
  function LoadMemory(cfg: Config, memory: map<Key, Entry>, k: Key, now: nat): (map<Key, Entry>, Loaded) {
    if k !in memory then (memory, Absent) else
    var r := Serve(cfg, memory[k], now);
    (if r.Absent? then memory - {k} else memory, r)
  }

  // ---- the persistent backend

  /** A flushed entry: the message, and the expiry in whole seconds. */
  datatype Saved = Saved(message: Message, expire: nat)

  /** A queued entry; every store raises the sequence. */
  datatype Queued = Queued(entry: Entry, sequence: nat)

  /** Where the flusher of an address is: about to read the queue, about to write what it read, or about to
      remove it from the queue. */
  datatype Flight = Reading | Writing(entry: Entry, sequence: nat) | Written(sequence: nat)

  /** The cache file: entries still queued, which keep their exact expiry, their flushers, and what is written. */
  datatype File = File(queue: map<Address, Queued>, flights: map<Address, Flight>, saved: map<Address, Saved>)

  const EMPTY := File(map[], map[], map[])

  function Flushed(e: Entry): Saved { Saved(e.message, e.ExpireAt() / Second) }

  function ServeSaved(cfg: Config, x: Saved, now: nat): Loaded { ServeUntil(cfg, x.message, x.expire * Second, now) }

  /** queueDNSCacheSave: a flusher starts unless one is at work. */
  function Queue(f: File, a: Address, e: Entry): File {
    if a in f.queue then f.(queue := f.queue[a := Queued(e, f.queue[a].sequence + 1)])
    else f.(queue := f.queue[a := Queued(e, 1)], flights := f.flights[a := Reading])
  }

  /** One step of flushPendingDNSCache: it reads the queue, writes, and is done unless the entry was queued
      again meanwhile. */
  function FlushStep(f: File, a: Address): File {
    if a !in f.queue || a !in f.flights then f else
    match f.flights[a]
    case Reading => f.(flights := f.flights[a := Writing(f.queue[a].entry, f.queue[a].sequence)])
    case Writing(e, n) => f.(saved := f.saved[a := Flushed(e)], flights := f.flights[a := Written(n)])
    case Written(n) =>
      if f.queue[a].sequence == n then f.(queue := f.queue - {a}, flights := f.flights - {a})
      else f.(flights := f.flights[a := Reading])
  }

  predicate Outdated(cfg: Config, x: Saved, now: nat) {
    !cfg.disableExpire && x.expire * Second + cfg.optimistic < now
  }

  /** cleanupDNSCache */
  function Tidy(cfg: Config, f: File, now: nat): File {
    f.(saved := map a | a in f.saved && !Outdated(cfg, f.saved[a], now) :: f.saved[a])
  }

  function LoadAt(cfg: Config, f: File, a: Address, now: nat): Loaded {
    if a in f.queue then Serve(cfg, f.queue[a].entry, now)
    else if a in f.saved then ServeSaved(cfg, f.saved[a], now)
    else Absent
  }

  function LoadDisk(cfg: Config, f: File, k: Key, now: nat): Loaded { LoadAt(cfg, f, AddressOf(k), now) }

  /** Every queued entry has a flusher, which knows whether what it read or wrote is what is queued now; an
      entry it wrote may have been cleaned up since. */
  ghost predicate FlightRight(cfg: Config, f: File, now: nat, a: Address)
    requires a in f.queue
  {
    && a in f.flights
    && (match f.flights[a]
        case Reading => true
        case Writing(e, n) => n <= f.queue[a].sequence && (n == f.queue[a].sequence ==> e == f.queue[a].entry)
        case Written(n) =>
          && n <= f.queue[a].sequence
          && (n == f.queue[a].sequence ==>
                var x := Flushed(f.queue[a].entry);
                if a in f.saved then f.saved[a] == x else Outdated(cfg, x, now)))
  }

  ghost predicate FileRight(cfg: Config, f: File, now: nat) {
    forall a | a in f.queue :: FlightRight(cfg, f, now, a)
  }

  lemma QueueKeeps(cfg: Config, f: File, now: nat, a: Address, e: Entry)
    requires FileRight(cfg, f, now)
    ensures FileRight(cfg, Queue(f, a, e), now)
  {
    hide Flushed, Outdated;
    forall b | b in Queue(f, a, e).queue ensures FlightRight(cfg, Queue(f, a, e), now, b) {
      if b in f.queue { assert FlightRight(cfg, f, now, b); }
    }
  }

  lemma FlushKeeps(cfg: Config, f: File, now: nat, a: Address)
    requires FileRight(cfg, f, now)
    ensures FileRight(cfg, FlushStep(f, a), now)
  {
    hide Flushed, Outdated;
    forall b | b in FlushStep(f, a).queue ensures FlightRight(cfg, FlushStep(f, a), now, b) {
      assert FlightRight(cfg, f, now, b);
    }
  }

  lemma TidyKeeps(cfg: Config, f: File, now: nat, t: nat)
    requires FileRight(cfg, f, now) && now <= t
    ensures FileRight(cfg, Tidy(cfg, f, t), t) && FileRight(cfg, f, t)
  {
    hide Flushed;
    forall b | b in f.queue ensures FlightRight(cfg, Tidy(cfg, f, t), t, b) && FlightRight(cfg, f, t, b) {
      assert FlightRight(cfg, f, now, b);
    }
  }

  /** A flushed entry is served as the entry itself will be the cut part of a second later. */
  lemma FlushedIsAhead(cfg: Config, e: Entry, now: nat)
    ensures ServeSaved(cfg, Flushed(e), now) == Serve(cfg, e, now + e.ExpireAt() % Second)
  {
    hide Normalized;
    var part := e.ExpireAt() % Second;
    assert Flushed(e).expire * Second == e.ExpireAt() - part;
  }

  /** So at one time or another a flushed entry is served differently, unless expiry is off or the entry
      expires at a whole second. */
  lemma FlushedAlikeIff(cfg: Config, e: Entry)
    ensures (forall now | e.storedAt <= now :: ServeSaved(cfg, Flushed(e), now) == Serve(cfg, e, now))
            <==> cfg.disableExpire || e.ExpireAt() % Second == 0
  {
    hide Normalized, Serve, ServeSaved;
    forall now: nat ensures ServeSaved(cfg, Flushed(e), now) == Serve(cfg, e, now + e.ExpireAt() % Second) {
      FlushedIsAhead(cfg, e, now);
    }
    if cfg.disableExpire { ServesAlways(cfg, e); }
    if !cfg.disableExpire && e.ExpireAt() % Second != 0 { ExpiresEarly(cfg, e); }
  }

  lemma ServesAlways(cfg: Config, e: Entry)
    requires cfg.disableExpire
    ensures forall now :: Serve(cfg, e, now) == Fresh(e.message, 0)
  {
  }

  /** At its expiry an entry is fresh in memory and no longer so when flushed. */
  lemma ExpiresEarly(cfg: Config, e: Entry)
    requires !cfg.disableExpire && e.ExpireAt() % Second != 0
    ensures Serve(cfg, e, e.ExpireAt()).Fresh? && !ServeSaved(cfg, Flushed(e), e.ExpireAt()).Fresh?
  {
    FlushedIsAhead(cfg, e, e.ExpireAt());
  }

  // ---- runs of both backends

  datatype Access =
    | Store(key: Key, entry: Entry)
    | Load(key: Key, now: nat)
    | Flush(key: Key, now: nat)
    | CleanUp(now: nat)

  /** Time of an access. */
  function At(a: Access): nat { if a.Store? then a.entry.storedAt else a.now }

  function MemoryRun(cfg: Config, memory: map<Key, Entry>, log: seq<Access>): seq<Loaded>
    decreases |log|
  {
    if log == [] then [] else
    match log[0]
    case Store(k, e) => MemoryRun(cfg, memory[k := e], log[1..])
    case Load(k, now) => var (m, r) := LoadMemory(cfg, memory, k, now); [r] + MemoryRun(cfg, m, log[1..])
    case _ => MemoryRun(cfg, memory, log[1..])
  }

  function DiskRun(cfg: Config, f: File, log: seq<Access>): seq<Loaded>
    decreases |log|
  {
    if log == [] then [] else
    match log[0]
    case Store(k, e) => DiskRun(cfg, Queue(f, AddressOf(k), e), log[1..])
    case Load(k, now) => [LoadDisk(cfg, f, k, now)] + DiskRun(cfg, f, log[1..])
    case Flush(k, _) => DiskRun(cfg, FlushStep(f, AddressOf(k)), log[1..])
    case CleanUp(now) => DiskRun(cfg, Tidy(cfg, f, now), log[1..])
  }

  /** The accesses come in time order, use keys of K and store entries of E. */
  ghost predicate Orderly(log: seq<Access>, since: nat, K: iset<Key>, E: iset<Entry>) {
    && (forall i | 0 <= i < |log| :: since <= At(log[i]) && (!log[i].CleanUp? ==> log[i].key in K))
    && (forall i | 0 <= i < |log| && log[i].Store? :: log[i].entry in E)
    && (forall i, j | 0 <= i < j < |log| :: At(log[i]) <= At(log[j]))
  }

  /** No two keys differ in the query class only. */
  ghost predicate OneClassEach(K: iset<Key>) {
    forall k, l | k in K && l in K && k.(qclass := l.qclass) == l :: k == l
  }

  /** Nothing is lost by a flush: expiry is off, or every entry expires at a whole second. */
  ghost predicate Lossless(cfg: Config, E: iset<Entry>) {
    cfg.disableExpire || forall e | e in E :: e.ExpireAt() % Second == 0
  }

  /** From now on both backends answer alike for keys of K, and what is queued is of E. */
  ghost predicate Mirror(cfg: Config, memory: map<Key, Entry>, f: File, now: nat, K: iset<Key>, E: iset<Entry>) {
    && (forall k, t | k in K && now <= t :: LoadMemory(cfg, memory, k, t).1 == LoadDisk(cfg, f, k, t))
    && (forall a | a in f.queue :: f.queue[a].entry in E) && FileRight(cfg, f, now)
  }

  lemma GoneStaysGone(cfg: Config, e: Entry, now: nat, t: nat)
    requires Serve(cfg, e, now).Absent? && now <= t
    ensures !cfg.disableExpire && Serve(cfg, e, t).Absent?
  {
  }

  /** Within K the address tells keys apart. */
  ghost predicate Apart(K: iset<Key>) { forall k, l | k in K && l in K :: AddressOf(k) == AddressOf(l) ==> k == l }

  lemma OneClassApart(K: iset<Key>)
    requires OneClassEach(K) && forall k | k in K :: CleanKey(k)
    ensures Apart(K)
  {
    hide AddressOf;
    forall k, l | k in K && l in K ensures AddressOf(k) == AddressOf(l) ==> k == l { AddressIgnoresClass(k, l); }
  }

  lemma StoreMirrors(cfg: Config, memory: map<Key, Entry>, f: File, now: nat, K: iset<Key>, E: iset<Entry>, k: Key,
          e: Entry)
    requires Mirror(cfg, memory, f, now, K, E) && Apart(K) && k in K && e in E
    ensures Mirror(cfg, memory[k := e], Queue(f, AddressOf(k), e), now, K, E)
  {
    QueueKeeps(cfg, f, now, AddressOf(k), e);
    hide Serve, ServeSaved, AddressOf, FileRight;
    forall l, t | l in K && now <= t
      ensures LoadMemory(cfg, memory[k := e], l, t).1 == LoadDisk(cfg, Queue(f, AddressOf(k), e), l, t)
    {
      assert LoadMemory(cfg, memory, l, t).1 == LoadDisk(cfg, f, l, t);
    }
  }

  lemma LoadMirrors(cfg: Config, memory: map<Key, Entry>, f: File, now: nat, K: iset<Key>, E: iset<Entry>, k: Key,
          t: nat)
    requires Mirror(cfg, memory, f, now, K, E) && k in K && now <= t
    ensures Mirror(cfg, LoadMemory(cfg, memory, k, t).0, f, t, K, E)
  {
    TidyKeeps(cfg, f, now, t);
    hide Serve, LoadDisk, FileRight;
    var m := LoadMemory(cfg, memory, k, t).0;
    forall l, u | l in K && t <= u ensures LoadMemory(cfg, m, l, u).1 == LoadDisk(cfg, f, l, u) {
      assert LoadMemory(cfg, memory, l, u).1 == LoadDisk(cfg, f, l, u);
      if l == k && k in memory && Serve(cfg, memory[k], t).Absent? { GoneStaysGone(cfg, memory[k], t, u); }
    }
  }

  /** A flush step that loses nothing shows nowhere. */
  lemma FlushShows(cfg: Config, f: File, now: nat, a: Address, b: Address, t: nat)
    requires FileRight(cfg, f, now) && now <= t
    requires a in f.queue ==> cfg.disableExpire || f.queue[a].entry.ExpireAt() % Second == 0
    ensures LoadAt(cfg, FlushStep(f, a), b, t) == LoadAt(cfg, f, b, t)
  {
    if a == b && a in f.queue {
      assert FlightRight(cfg, f, now, a);
      var e := f.queue[a].entry;
      FlushedIsAhead(cfg, e, t);
      if cfg.disableExpire { ServesAlways(cfg, e); }
      if Outdated(cfg, Flushed(e), now) { OutdatedIsGone(cfg, Flushed(e), now, t); }
      hide Serve, ServeSaved, Flushed, Outdated;
    }
  }

  lemma OutdatedIsGone(cfg: Config, x: Saved, now: nat, t: nat)
    requires Outdated(cfg, x, now) && now <= t
    ensures ServeSaved(cfg, x, t).Absent?
  {
  }

  lemma FlushMirrors(cfg: Config, memory: map<Key, Entry>, f: File, now: nat, K: iset<Key>, E: iset<Entry>, k: Key)
    requires Mirror(cfg, memory, f, now, K, E) && Lossless(cfg, E)
    ensures Mirror(cfg, memory, FlushStep(f, AddressOf(k)), now, K, E)
  {
    var a := AddressOf(k);
    FlushKeeps(cfg, f, now, a);
    hide Serve, ServeSaved, AddressOf, Flushed, FileRight, LoadAt;
    forall l, t | l in K && now <= t
      ensures LoadMemory(cfg, memory, l, t).1 == LoadDisk(cfg, FlushStep(f, a), l, t)
    {
      assert LoadMemory(cfg, memory, l, t).1 == LoadDisk(cfg, f, l, t);
      FlushShows(cfg, f, now, a, AddressOf(l), t);
    }
  }

  /** A clean-up shows in no later load. */
  lemma TidyShows(cfg: Config, f: File, t: nat, a: Address, u: nat)
    requires t <= u
    ensures LoadAt(cfg, Tidy(cfg, f, t), a, u) == LoadAt(cfg, f, a, u)
  {
    hide Serve, ServeSaved, Outdated;
    if a in f.saved && Outdated(cfg, f.saved[a], t) { OutdatedIsGone(cfg, f.saved[a], t, u); }
  }

  lemma TidyMirrors(cfg: Config, memory: map<Key, Entry>, f: File, now: nat, K: iset<Key>, E: iset<Entry>, t: nat)
    requires Mirror(cfg, memory, f, now, K, E) && now <= t
    ensures Mirror(cfg, memory, Tidy(cfg, f, t), t, K, E)
  {
    TidyKeeps(cfg, f, now, t);
    hide Serve, AddressOf, FileRight, Tidy, LoadAt;
    forall l, u | l in K && t <= u
      ensures LoadMemory(cfg, memory, l, u).1 == LoadDisk(cfg, Tidy(cfg, f, t), l, u)
    {
      assert LoadMemory(cfg, memory, l, u).1 == LoadDisk(cfg, f, l, u);
      TidyShows(cfg, f, t, AddressOf(l), u);
    }
  }

  /** Over keys the address tells apart and entries a flush loses nothing of, both backends answer alike on
      every run, wherever flushes and clean-ups fall. */
  lemma {:induction false} BackendsAgree(cfg: Config, memory: map<Key, Entry>, f: File, log: seq<Access>, now: nat,
          K: iset<Key>, E: iset<Entry>)
    requires Mirror(cfg, memory, f, now, K, E) && Apart(K) && Lossless(cfg, E) && Orderly(log, now, K, E)
    ensures MemoryRun(cfg, memory, log) == DiskRun(cfg, f, log)
    decreases |log|
  {
    hide Apart, Lossless, LoadMemory, LoadDisk, Queue, FlushStep, Tidy;
    if log != [] {
      var rest := log[1..];
      assert Orderly(rest, At(log[0]), K, E) && Orderly(rest, now, K, E);
      match log[0]
      case Store(k, e) =>
        StoreMirrors(cfg, memory, f, now, K, E, k, e);
        BackendsAgree(cfg, memory[k := e], Queue(f, AddressOf(k), e), rest, now, K, E);
      case Load(k, t) =>
        LoadMirrors(cfg, memory, f, now, K, E, k, t);
        BackendsAgree(cfg, LoadMemory(cfg, memory, k, t).0, f, rest, t, K, E);
      case Flush(k, _) =>
        FlushMirrors(cfg, memory, f, now, K, E, k);
        BackendsAgree(cfg, memory, FlushStep(f, AddressOf(k)), rest, now, K, E);
      case CleanUp(t) =>
        TidyMirrors(cfg, memory, f, now, K, E, t);
        BackendsAgree(cfg, memory, Tidy(cfg, f, t), rest, t, K, E);
    }
  }

  /** Two keys that differ in the class only collide on disk: a store under one is loaded under the other. */
  lemma ClassesCollideOnDisk(cfg: Config, k: Key, l: Key, e: Entry)
    requires k != l && k.(qclass := l.qclass) == l
    ensures var log := [Store(k, e), Load(l, e.storedAt)];
            MemoryRun(cfg, map[], log) == [Absent] && DiskRun(cfg, EMPTY, log) != [Absent]
  {
    var log := [Store(k, e), Load(l, e.storedAt)];
    assert log[1..] == [Load(l, e.storedAt)] && log[1..][1..] == [];
    assert AddressOf(k) == AddressOf(l);
    var f := Queue(EMPTY, AddressOf(k), e);
    assert LoadDisk(cfg, f, l, e.storedAt) == Serve(cfg, e, e.storedAt);
    assert DiskRun(cfg, f, log[1..]) == [Serve(cfg, e, e.storedAt)] + [];
    assert MemoryRun(cfg, map[][k := e], log[1..]) == [Absent] + [];
    assert DiskRun(cfg, EMPTY, log)[0] == Serve(cfg, e, e.storedAt);
  }

  /** A store, the three steps of its flush, and a load at the expiry. */
  function FlushLog(k: Key, e: Entry): seq<Access> {
    [Store(k, e), Flush(k, e.storedAt), Flush(k, e.storedAt), Flush(k, e.storedAt), Load(k, e.ExpireAt())]
  }

  /** An entry that does not expire at a whole second is lost a part of a second early once it is flushed. */
  lemma FlushCutsOnDisk(cfg: Config, k: Key, e: Entry)
    requires !cfg.disableExpire && e.ExpireAt() % Second != 0
    ensures MemoryRun(cfg, map[], FlushLog(k, e)) != DiskRun(cfg, EMPTY, FlushLog(k, e))
  {
    ExpiresEarly(cfg, e);
    hide Serve, ServeSaved, Flushed, AddressOf;
    var a, log := AddressOf(k), FlushLog(k, e);
    var log1, log2, log3, log4 := log[1..], log[2..], log[3..], log[4..];
    assert log1[1..] == log2 && log2[1..] == log3 && log3[1..] == log4 && log4[1..] == [];
    var f := Queue(EMPTY, a, e);
    var f1 := FlushStep(f, a);
    var f2 := FlushStep(f1, a);
    var f3 := FlushStep(f2, a);
    assert DiskRun(cfg, EMPTY, log) == DiskRun(cfg, f, log1) == DiskRun(cfg, f1, log2) == DiskRun(cfg, f2, log3);
    assert DiskRun(cfg, f2, log3) == DiskRun(cfg, f3, log4);
    assert DiskRun(cfg, f3, log4)[0] == ServeSaved(cfg, Flushed(e), e.ExpireAt());
    var memory: map<Key, Entry> := map[][k := e];
    assert MemoryRun(cfg, map[], log) == MemoryRun(cfg, memory, log1) == MemoryRun(cfg, memory, log2);
    assert MemoryRun(cfg, memory, log2) == MemoryRun(cfg, memory, log3) == MemoryRun(cfg, memory, log4);
    assert MemoryRun(cfg, memory, log4)[0] == Serve(cfg, e, e.ExpireAt());
  }

  /** From empty backends, every time-ordered run over a set of clean keys and a set of entries, flushed and
      cleaned up at any time, gives the same answers from both backends exactly when no two of the keys
      differ in the query class only and a flush loses nothing of the entries. */
  lemma BackendsAgreeIff(cfg: Config, K: iset<Key>, E: iset<Entry>)
    requires forall k | k in K :: CleanKey(k)
    ensures (forall log | Orderly(log, 0, K, E) :: MemoryRun(cfg, map[], log) == DiskRun(cfg, EMPTY, log))
              <==> (K == iset{} || E == iset{} || (OneClassEach(K) && Lossless(cfg, E)))
  {
    hide MemoryRun, DiskRun;
    if K == iset{} || E == iset{} {
      forall log | Orderly(log, 0, K, E) ensures MemoryRun(cfg, map[], log) == DiskRun(cfg, EMPTY, log) {
        NothingStored(cfg, log, K, E);
      }
    } else if OneClassEach(K) && Lossless(cfg, E) {
      OneClassApart(K);
      forall log | Orderly(log, 0, K, E) ensures MemoryRun(cfg, map[], log) == DiskRun(cfg, EMPTY, log) {
        BackendsAgree(cfg, map[], EMPTY, log, 0, K, E);
      }
    } else if !OneClassEach(K) {
      var k, l :| k in K && l in K && k.(qclass := l.qclass) == l && k != l;
      var e :| e in E;
      ClassesCollideOnDisk(cfg, k, l, e);
      assert Orderly([Store(k, e), Load(l, e.storedAt)], 0, K, E);
    } else {
      var k :| k in K;
      var e :| e in E && e.ExpireAt() % Second != 0;
      FlushCutsOnDisk(cfg, k, e);
      assert Orderly(FlushLog(k, e), 0, K, E);
    }
  }

  lemma {:induction false} NothingStored(cfg: Config, log: seq<Access>, K: iset<Key>, E: iset<Entry>)
    requires Orderly(log, 0, K, E) && (K == iset{} || E == iset{})
    ensures MemoryRun(cfg, map[], log) == DiskRun(cfg, EMPTY, log)
    decreases |log|
  {
    if log != [] {
      assert Orderly(log[1..], 0, K, E);
      NothingStored(cfg, log[1..], K, E);
      assert !log[0].Store?;
      assert Tidy(cfg, EMPTY, At(log[0])) == EMPTY;
    }
  }

  // ---- the client's cache

  /** A flushed entry comes from a sound one. */
  ghost predicate SoundSaved(x: Saved, clock: nat) { exists e :: Sound(e) && e.storedAt <= clock && x == Flushed(e) }

  /** What a load may answer: nothing, or the truth about a sound entry up to its expiry, which a flush cuts
      to the whole second. */
  ghost predicate ServedRight(cfg: Config, now: nat, r: Loaded) {
    r.Absent? || exists e, until ::
      && Sound(e) && e.storedAt <= now && (until == e.ExpireAt() || until == e.ExpireAt() / Second * Second)
      && Truthful(cfg, e, until, now, r)
  }

  lemma EntryServedRight(cfg: Config, e: Entry, now: nat)
    requires Sound(e) && e.storedAt <= now
    ensures ServedRight(cfg, now, Serve(cfg, e, now)) && ServedRight(cfg, now, ServeSaved(cfg, Flushed(e), now))
  {
    var cut := e.ExpireAt() / Second * Second;
    ServeRight(cfg, e, e.ExpireAt(), now);
    ServeRight(cfg, e, cut, now);
    hide Sound, Truthful, ServeUntil;
    assert Serve(cfg, e, now) == ServeUntil(cfg, e.message, e.ExpireAt(), now);
    assert ServeSaved(cfg, Flushed(e), now) == ServeUntil(cfg, e.message, cut, now);
  }

  /** The client's cache with either backend; `environment` is what environmentHash returns. */
  class Cache {
    const persistent: bool
    const cfg: Config
    var memory: map<Key, Entry>
    var file: File

    /** The latest time a method was called with. */
    ghost var clock: nat

    constructor (persistent: bool, cfg: Config)
      ensures this.persistent == persistent && this.cfg == cfg && Valid() && memory == map[] && file == EMPTY
    {
      this.persistent, this.cfg := persistent, cfg;
      memory, file, clock := map[], EMPTY, 0;
    }

    /** Everything stored is sound and not from the future, and only the configured backend is used. */
    ghost predicate Valid()
      reads this
    {
      && (forall k | k in memory :: Sound(memory[k]) && memory[k].storedAt <= clock)
      && (forall a | a in file.queue :: Sound(file.queue[a].entry) && file.queue[a].entry.storedAt <= clock)
      && (forall a | a in file.flights && file.flights[a].Writing? ::
            Sound(file.flights[a].entry) && file.flights[a].entry.storedAt <= clock)
      && (forall a | a in file.saved :: SoundSaved(file.saved[a], clock))
      && (persistent ==> memory == map[]) && (!persistent ==> file == EMPTY)
    }

    ghost method Pass(now: nat)
      modifies this`clock
      ensures clock == (if old(clock) < now then now else old(clock)) && (old(Valid()) ==> Valid())
    {
      if clock < now { clock := now; }
      assert forall x: Saved :: SoundSaved(x, old(clock)) ==> SoundSaved(x, clock);
    }

    method StoreCache(k: Key, m: Message, t: uint32, now: nat)
      requires Valid()
      modifies this
      ensures t == 0 || Sound(Entry(m, now, t)) ==> Valid()
      ensures t == 0 ==> memory == old(memory) && file == old(file)
      ensures t > 0 && persistent ==> file == Queue(old(file), AddressOf(k), Entry(m, now, t)) && memory == old(memory)
      ensures t > 0 && !persistent ==> memory == old(memory)[k := Entry(m, now, t)] && file == old(file)
      ensures clock == if old(clock) < now then now else old(clock)
    {
      Pass(now);
      if t == 0 { return; }
      if persistent {
        file := Queue(file, AddressOf(k), Entry(m, now, t));
      } else {
        memory := memory[k := Entry(m, now, t)];
      }
    }

    /** A step of the flusher of an address, at any time. */
    method FlushPending(a: Address)
      requires Valid()
      modifies this`file
      ensures Valid() && file == FlushStep(old(file), a)
    {
      file := FlushStep(file, a);
    }

    /** The clean-up of the cache file. */
    method CleanupDNSCache(now: nat)
      requires Valid()
      modifies this`file
      ensures Valid() && file == Tidy(cfg, old(file), now)
      ensures forall a, t | now <= t :: LoadAt(cfg, file, a, t) == LoadAt(cfg, old(file), a, t)
      ensures file.queue == old(file).queue && file.flights == old(file).flights
      ensures forall a :: a in file.saved <==>
                && a in old(file).saved
                && (cfg.disableExpire || now <= old(file).saved[a].expire * Second + cfg.optimistic)
      ensures forall a | a in file.saved :: file.saved[a] == old(file).saved[a]
    {
      forall a, t | now <= t ensures LoadAt(cfg, Tidy(cfg, file, now), a, t) == LoadAt(cfg, file, a, t) {
        TidyShows(cfg, file, now, a, t);
      }
      file := Tidy(cfg, file, now);
    }

    method LoadResponse(k: Key, now: nat) returns (r: Loaded)
      requires Valid()
      modifies this
      ensures Valid() && file == old(file) && clock == (if old(clock) < now then now else old(clock))
      ensures if persistent then memory == old(memory) && r == LoadDisk(cfg, file, k, now)
              else (memory, r) == LoadMemory(cfg, old(memory), k, now)
      ensures old(clock) <= now ==> ServedRight(cfg, now, r)
      ensures !persistent ==> memory == if r.Absent? then old(memory) - {k} else old(memory)
    {
      Pass(now);
      if persistent {
        var a := AddressOf(k);
        if a in file.queue {
          r := Serve(cfg, file.queue[a].entry, now);
          if old(clock) <= now { EntryServedRight(cfg, file.queue[a].entry, now); }
        } else if a in file.saved {
          r := ServeSaved(cfg, file.saved[a], now);
          if old(clock) <= now {
            ghost var e :| Sound(e) && e.storedAt <= clock && file.saved[a] == Flushed(e);
            EntryServedRight(cfg, e, now);
          }
        } else {
          r := Absent;
        }
        return;
      }
      if k !in memory { return Absent; }
      r := Serve(cfg, memory[k], now);
      if old(clock) <= now { EntryServedRight(cfg, memory[k], now); }
      if r.Absent? { memory := memory - {k}; }
    }

    /** What a load would answer. */
    ghost function Peek(k: Key, now: nat): Loaded
      reads this
    {
      if persistent then LoadDisk(cfg, file, k, now) else LoadMemory(cfg, memory, k, now).1
    }

    /** Two keys the backend keeps in one place. */
    ghost predicate OnePlace(k: Key, l: Key)
      reads this
    {
      if persistent then AddressOf(k) == AddressOf(l) else k == l
    }

    /** finishCacheKey: an answer begun in a non-zero environment is only stored in that one. */
    static function FinishKey(k: Key, environment: nat): (r: Option<Key>)
      ensures r.Some? ==> r.value == k.(environment := environment)
      ensures r.None? <==> k.environment != 0 && k.environment != environment
    {
      if environment == k.environment || k.environment == 0 then Some(k.(environment := environment)) else None
    }

    /** An entry stored for a key is what a load of that key finds at that time; loads of keys kept in other
        places do not notice. */
    lemma StoredIsLoaded(k: Key, e: Entry, was: File, had: map<Key, Entry>)
      requires persistent ==> file == Queue(was, AddressOf(k), e)
      requires !persistent ==> memory == had[k := e]
      requires e.lifetime > 0 && e.message == Normalized(e.message, e.lifetime)
      ensures Peek(k, e.storedAt) == Fresh(e.message, if cfg.disableExpire then 0 else e.lifetime)
      ensures forall l, u | !OnePlace(l, k) ::
                Peek(l, u) == if persistent then LoadDisk(cfg, was, l, u) else LoadMemory(cfg, had, l, u).1
    {
      hide AddressOf, Normalized;
      SecondsLeft(e.lifetime * Second, e.lifetime);
      assert Serve(cfg, e, e.storedAt) == Fresh(e.message, if cfg.disableExpire then 0 else e.lifetime);
      hide Serve, ServeSaved;
    }

    /** finishExchange, from the transport's response on; `checked` is the response checker's answer
        when there is a checker. A rejected response, one with another rcode, one without lifetime and
        one whose environment changed are not stored. What is stored is what the next load of the key finds,
        and no load of a key kept elsewhere notices. */
    method FinishExchange(k: Key, disableCache: bool, checked: Option<bool>, response: Response,
            rewrite: Option<uint32>, environment: nat, now: nat)
      returns (rejected: bool, t: uint32)
      requires Valid() && response.Apart()
      modifies this, response.answer, response.ns, response.extra
      ensures Valid()
      ensures var m := old(response.Content());
              var definite := m.rcode == RcodeSuccess || m.rcode == RcodeNameError;
              && (rejected <==> checked.Some? && (!definite || !checked.value))
              && (rejected ==> response.Content() == m)
              && (!rejected ==> response.Content() == Normalized(m, t))
              && (!rejected ==> if rewrite.Some? then t == rewrite.value else Lifetime(m, t))
      ensures var m, kept := old(response.Content()), k.(environment := environment);
              var definite := m.rcode == RcodeSuccess || m.rcode == RcodeNameError;
              var same := k.environment == 0 || k.environment == environment;
              var stores := !rejected && !disableCache && definite && same && t > 0;
              && (stores ==> Peek(kept, now) == Fresh(Normalized(m, t), if cfg.disableExpire then 0 else t))
              && (forall l, u | !stores || !OnePlace(l, kept) :: Peek(l, u) == old(Peek(l, u)))
              && file == (if stores && persistent then
                            Queue(old(file), AddressOf(kept), Entry(Normalized(m, t), now, t)) else old(file))
              && memory == (if stores && !persistent then
                              old(memory)[kept := Entry(Normalized(m, t), now, t)] else old(memory))
    {
      ghost var m := response.Content();
      var definite := response.rcode == RcodeSuccess || response.rcode == RcodeNameError;
      rejected, t := false, 0;
      if checked.Some? && (!definite || !checked.value) { return true, 0; }
      t := response.ApplyTTL(rewrite);
      NormalizedLives(m, t);
      if !disableCache && definite {
        var key := FinishKey(k, environment);
        if key.Some? {
          StoreCache(key.value, response.Content(), t, now);
          if t > 0 { StoredIsLoaded(key.value, Entry(Normalized(m, t), now, t), old(file), old(memory)); }
        }
      }
    }

    /** The end of backgroundRefreshDNS, once the transport has answered; it stores under the same
        conditions as an exchange. */
    method FinishRefresh(k: Key, checked: Option<bool>, response: Response, rewrite: Option<uint32>, environment: nat,
            now: nat)
      returns (accepted: bool, t: uint32)
      requires Valid() && response.Apart()
      modifies this, response.answer, response.ns, response.extra
      ensures Valid()
      ensures var m, kept := old(response.Content()), k.(environment := environment);
              var definite := m.rcode == RcodeSuccess || m.rcode == RcodeNameError;
              var same := k.environment == 0 || k.environment == environment;
              && (accepted <==> definite && (checked.Some? ==> checked.value) && same)
              && (accepted ==> if rewrite.Some? then t == rewrite.value else Lifetime(m, t))
              && (accepted && t > 0 ==>
                    Peek(kept, now) == Fresh(Normalized(m, t), if cfg.disableExpire then 0 else t))
              && (forall l, u | !accepted || t == 0 || !OnePlace(l, kept) :: Peek(l, u) == old(Peek(l, u)))
              && file == (if accepted && t > 0 && persistent then
                            Queue(old(file), AddressOf(kept), Entry(Normalized(m, t), now, t)) else old(file))
              && memory == (if accepted && t > 0 && !persistent then
                              old(memory)[kept := Entry(Normalized(m, t), now, t)] else old(memory))
    {
      ghost var m := response.Content();
      var definite := response.rcode == RcodeSuccess || response.rcode == RcodeNameError;
      if !definite || (checked.Some? && !checked.value) { return false, 0; }
      var key := FinishKey(k, environment);
      if key.None? { return false, 0; }
      t := response.ApplyTTL(rewrite);
      NormalizedLives(m, t);
      StoreCache(key.value, response.Content(), t, now);
      if t > 0 { StoredIsLoaded(key.value, Entry(Normalized(m, t), now, t), old(file), old(memory)); }
      accepted := true;
    }
  }
}
