// The EDNS client subnet of a query and the cache key that must agree with it
// (dns/extension_edns0_subnet.go, dns/client.go; section 7.3.1 of RFC 7871).
module DnsSubnet {
  import opened Base

  /** netip.Prefix: no prefix, or an address with a length; the length is -1 when it is out of range. */
  datatype Prefix = NoPrefix | Prefix(address: seq<Octet>, bits: int)
  {
    predicate IsValid() { Prefix? && (|address| == 4 || |address| == 16) && 0 <= bits <= 8 * |address| }
  }

  /** An IPv4 address in IPv6 form. */
  predicate Mapped(address: seq<Octet>) {
    |address| == 16 && address[..12] == [0, 0, 0, 0, 0, 0, 0, 0, 0, 0, 255, 255]
  }

  function Unmap(address: seq<Octet>): seq<Octet> { if Mapped(address) then address[12..] else address }

  function PrefixFrom(address: seq<Octet>, bits: nat): Prefix {
    Prefix(address, if bits <= 8 * |address| then bits else -1)
  }

  datatype Edns = Subnet(family: nat, mask: Octet, address: seq<Octet>) | Other(code: nat, data: string)
  datatype RecordValue = Opt(options: seq<Edns>) | Plain(body: string)

  // ---- reading

  /** The first subnet option of an OPT record. */
  function SubnetIn(options: seq<Edns>): (r: Option<nat>)
    ensures r.Some? ==>
              r.value < |options| && options[r.value].Subnet? && forall i | 0 <= i < r.value :: !options[i].Subnet?
    ensures r.None? <==> forall i | 0 <= i < |options| :: !options[i].Subnet?
  {
    if options == [] then None else if options[0].Subnet? then Some(0) else
    var r := SubnetIn(options[1..]);
    if r.Some? then Some(r.value + 1) else None
  }

  predicate HasSubnet(r: RecordValue) { r.Opt? && SubnetIn(r.options).Some? }

  /** The first record that carries a subnet option. */
  function Carrier(rs: seq<RecordValue>): (r: Option<nat>)
    ensures r.Some? ==> r.value < |rs| && HasSubnet(rs[r.value]) && forall i | 0 <= i < r.value :: !HasSubnet(rs[i])
    ensures r.None? <==> forall i | 0 <= i < |rs| :: !HasSubnet(rs[i])
  {
    if rs == [] then None else if HasSubnet(rs[0]) then Some(0) else
    var r := Carrier(rs[1..]);
    if r.Some? then Some(r.value + 1) else None
  }

  function ReadOption(o: Edns): Prefix
    requires o.Subnet?
  {
    if |o.address| != 4 && |o.address| != 16 then NoPrefix else PrefixFrom(Unmap(o.address), o.mask)
  }

  /** clientSubnetFromMessage */
  function FromExtra(rs: seq<RecordValue>): Prefix {
    match Carrier(rs)
    case None => NoPrefix
    case Some(i) => ReadOption(rs[i].options[SubnetIn(rs[i].options).value])
  }

  // ---- writing

  function NewSubnet(p: Prefix): Edns
    requires p.IsValid()
  {
    Subnet(if |p.address| == 4 then 1 else 2, p.bits, p.address)
  }

  /** setClientSubnet: the first subnet option is overwritten; without one, the last record gets one if
      it is an OPT record, and otherwise a new OPT record does. */
  function SetSubnet(rs: seq<RecordValue>, p: Prefix): seq<RecordValue>
    requires p.IsValid()
  {
    match Carrier(rs)
    case Some(i) => rs[i := Opt(rs[i].options[SubnetIn(rs[i].options).value := NewSubnet(p)])]
    case None =>
      if rs != [] && rs[|rs| - 1].Opt? then rs[|rs| - 1 := Opt(rs[|rs| - 1].options + [NewSubnet(p)])]
      else rs + [Opt([NewSubnet(p)])]
  }

  function KeepOthers(options: seq<Edns>): seq<Edns> {
    if options == [] then [] else (if options[0].Subnet? then [] else [options[0]]) + KeepOthers(options[1..])
  }

  lemma {:induction false} KeepsOthersOnly(options: seq<Edns>)
    ensures forall i | 0 <= i < |KeepOthers(options)| :: !KeepOthers(options)[i].Subnet?
  {
    if options != [] { KeepsOthersOnly(options[1..]); }
  }

  function Stripped(r: RecordValue): RecordValue { if r.Opt? then Opt(KeepOthers(r.options)) else r }

  /** removeClientSubnet */
  function RemoveSubnet(rs: seq<RecordValue>): (out: seq<RecordValue>)
    ensures |out| == |rs| && forall i | 0 <= i < |rs| :: out[i] == Stripped(rs[i])
  {
    seq(|rs|, i requires 0 <= i < |rs| => Stripped(rs[i]))
  }

  lemma CarrierIs(rs: seq<RecordValue>, i: nat)
    requires i < |rs| && HasSubnet(rs[i]) && forall j | 0 <= j < i :: !HasSubnet(rs[j])
    ensures Carrier(rs) == Some(i)
  {
  }

  lemma SubnetAt(options: seq<Edns>, i: nat)
    requires i < |options| && options[i].Subnet? && forall j | 0 <= j < i :: !options[j].Subnet?
    ensures SubnetIn(options) == Some(i)
  {
  }

  lemma WrittenAt(rs: seq<RecordValue>, i: nat, options: seq<Edns>, j: nat, p: Prefix)
    requires p.IsValid() && i < |rs| && rs[i] == Opt(options) && j < |options| && options[j] == NewSubnet(p)
    requires forall k | 0 <= k < i :: !HasSubnet(rs[k])
    requires forall k | 0 <= k < j :: !options[k].Subnet?
    ensures FromExtra(rs) == ReadOption(NewSubnet(p))
  {
    SubnetAt(options, j);
    CarrierIs(rs, i);
  }

  /** What is written is read back, whatever the message held before. */
  lemma SetIsRead(rs: seq<RecordValue>, p: Prefix)
    requires p.IsValid()
    ensures FromExtra(SetSubnet(rs, p)) == ReadOption(NewSubnet(p))
  {
    var out := SetSubnet(rs, p);
    match Carrier(rs)
    case Some(i) =>
      var j := SubnetIn(rs[i].options).value;
      WrittenAt(out, i, rs[i].options[j := NewSubnet(p)], j, p);
    case None =>
      if rs != [] && rs[|rs| - 1].Opt? {
        var last := rs[|rs| - 1].options;
        assert !HasSubnet(rs[|rs| - 1]);
        WrittenAt(out, |rs| - 1, last + [NewSubnet(p)], |last|, p);
      } else {
        WrittenAt(out, |rs|, [NewSubnet(p)], 0, p);
      }
  }

  /** A subnet survives the message exactly when it is not an IPv4-mapped address. */
  lemma SubnetRoundTrip(rs: seq<RecordValue>, p: Prefix)
    requires p.IsValid()
    ensures FromExtra(SetSubnet(rs, p)) == p <==> !Mapped(p.address)
  {
    SetIsRead(rs, p);
  }

  lemma {:induction false} KeepOthersAppend(options: seq<Edns>, o: Edns)
    ensures KeepOthers(options + [o]) == KeepOthers(options) + if o.Subnet? then [] else [o]
  {
    if options == [] {
      assert options + [o] == [o] && [o][1..] == [];
    } else {
      KeepOthersAppend(options[1..], o);
      var longer := options + [o];
      assert longer[0] == options[0] && longer[1..] == options[1..] + [o];
      var head := if options[0].Subnet? then [] else [options[0]];
      var kept, tail := KeepOthers(options[1..]), if o.Subnet? then [] else [o];
      assert KeepOthers(longer) == head + (kept + tail) == (head + kept) + tail;
    }
  }

  lemma {:induction false} KeepOthersUpdate(options: seq<Edns>, j: nat, o: Edns)
    requires j < |options| && options[j].Subnet? && o.Subnet?
    ensures KeepOthers(options[j := o]) == KeepOthers(options)
  {
    if j == 0 {
      assert options[j := o][1..] == options[1..];
    } else {
      KeepOthersUpdate(options[1..], j - 1, o);
      assert options[j := o][1..] == options[1..][j - 1 := o];
    }
  }

  /** Writing a subnet changes no other option and no other record; at most an empty OPT record is new. */
  lemma SetTouchesOnlySubnet(rs: seq<RecordValue>, p: Prefix)
    requires p.IsValid()
    ensures var out := RemoveSubnet(SetSubnet(rs, p)); out == RemoveSubnet(rs) || out == RemoveSubnet(rs) + [Opt([])]
  {
    hide NewSubnet, Prefix.IsValid;
    assert NewSubnet(p).Subnet? by { WrittenOption(p); }
    match Carrier(rs)
    case Some(i) => KeepOthersUpdate(rs[i].options, SubnetIn(rs[i].options).value, NewSubnet(p));
    case None =>
      if rs != [] && rs[|rs| - 1].Opt? {
        var last := rs[|rs| - 1].options;
        KeepOthersAppend(last, NewSubnet(p));
        assert KeepOthers(last) + [] == KeepOthers(last);
        assert RemoveSubnet(SetSubnet(rs, p)) == RemoveSubnet(rs);
      } else {
        KeepOthersAppend([], NewSubnet(p));
        assert [] + [NewSubnet(p)] == [NewSubnet(p)];
      }
  }

  /** The option written has the address family, the length and the address of the prefix (section 6 of
      RFC 7871). */
  lemma WrittenOption(p: Prefix)
    requires p.IsValid()
    ensures var o := NewSubnet(p);
            o.Subnet? && o.mask == p.bits && o.address == p.address && o.family == (if |p.address| == 4 then 1 else 2)
  {
  }

  lemma RemovedIsGone(rs: seq<RecordValue>)
    ensures FromExtra(RemoveSubnet(rs)) == NoPrefix
  {
    var out := RemoveSubnet(rs);
    forall i | 0 <= i < |out| ensures !HasSubnet(out[i]) {
      if out[i].Opt? { KeepsOthersOnly(rs[i].options); }
    }
  }

  // ---- the cache key

  /** The query's own subnet option, the client's default, and whether to remove the subnet. */
  datatype Choice = Choice(own: Prefix, fallback: Prefix, remove: bool)
  {
    function Wanted(): Prefix { if own.IsValid() then own else fallback }
  }

  /** The subnet part of newCacheKey. */
  function KeySubnet(c: Choice, rs: seq<RecordValue>): Prefix {
    if c.remove then NoPrefix else if c.Wanted().IsValid() then c.Wanted() else FromExtra(rs)
  }

  /** prepareExchangeMessage */
  function Prepared(c: Choice, rs: seq<RecordValue>): seq<RecordValue> {
    if c.remove then RemoveSubnet(rs) else if c.Wanted().IsValid() then SetSubnet(rs, c.Wanted()) else rs
  }

  /** The subnet in the cache key is the one the outgoing message carries, unless an IPv4-mapped subnet
      is written into it. */
  lemma KeyCoherence(c: Choice, rs: seq<RecordValue>)
    ensures KeySubnet(c, Prepared(c, rs)) == FromExtra(Prepared(c, rs)) <==>
            c.remove || !c.Wanted().IsValid() || !Mapped(c.Wanted().address)
  {
    if c.remove {
      RemovedIsGone(rs);
    } else if c.Wanted().IsValid() {
      SubnetRoundTrip(rs, c.Wanted());
    }
  }

  /** Whose subnet is used, said of the settings alone: none when it is to be removed, otherwise the query's own,
      then the client's default, then what the message has. */
  lemma SubnetPriority(c: Choice, rs: seq<RecordValue>)
    ensures c.remove ==> KeySubnet(c, rs) == NoPrefix && FromExtra(Prepared(c, rs)) == NoPrefix
    ensures !c.remove && c.own.IsValid() ==>
              KeySubnet(c, rs) == c.own && (!Mapped(c.own.address) ==> FromExtra(Prepared(c, rs)) == c.own)
    ensures !c.remove && !c.own.IsValid() && c.fallback.IsValid() ==>
              && KeySubnet(c, rs) == c.fallback
              && (!Mapped(c.fallback.address) ==> FromExtra(Prepared(c, rs)) == c.fallback)
    ensures !c.remove && !c.own.IsValid() && !c.fallback.IsValid() ==>
              KeySubnet(c, rs) == FromExtra(rs) && Prepared(c, rs) == rs
  {
    RemovedIsGone(rs);
    if c.own.IsValid() { SubnetRoundTrip(rs, c.own); }
    if c.fallback.IsValid() { SubnetRoundTrip(rs, c.fallback); }
    hide FromExtra, SetSubnet, RemoveSubnet, Mapped;
  }

  /** What a subnet option is read as: nothing unless its address is an IPv4 or IPv6 one; an IPv4 address in IPv6
      form is read as IPv4; a length beyond the address makes the prefix invalid. */
  lemma ReadMeans(o: Edns)
    requires o.Subnet?
    ensures ReadOption(o) == NoPrefix <==> |o.address| != 4 && |o.address| != 16
    ensures ReadOption(o).Prefix? ==>
              && ReadOption(o).address == (if Mapped(o.address) then o.address[12..] else o.address)
              && (ReadOption(o).IsValid() <==> o.mask <= 8 * |ReadOption(o).address|)
              && (ReadOption(o).IsValid() ==> ReadOption(o).bits == o.mask)
  {
  }

  /** The lookup's cache probe, made before the message is prepared, uses the exchange's key. */
  lemma ProbeUsesSameKey(c: Choice, rs: seq<RecordValue>)
    ensures KeySubnet(c, rs) == KeySubnet(c, Prepared(c, rs))
  {
  }

  /** Preparing a prepared message again changes neither the key nor the subnet it carries. */
  lemma PreparedTwice(c: Choice, rs: seq<RecordValue>)
    ensures FromExtra(Prepared(c, Prepared(c, rs))) == FromExtra(Prepared(c, rs))
  {
    if c.remove {
      RemovedIsGone(rs);
      RemovedIsGone(RemoveSubnet(rs));
    } else if c.Wanted().IsValid() {
      SetIsRead(rs, c.Wanted());
      SetIsRead(SetSubnet(rs, c.Wanted()), c.Wanted());
    }
  }

  // ---- messages on the heap

  class Record {
    var isOPT: bool
    var options: seq<Edns>
    var body: string

    constructor (v: RecordValue)
      ensures Value() == v
    {
      isOPT, options, body := v.Opt?, if v.Opt? then v.options else [], if v.Opt? then "" else v.body;
    }

    function Value(): RecordValue
      reads this
    {
      if isOPT then Opt(options) else Plain(body)
    }
  }

  class Message {
    var extra: seq<Record>

    constructor (extra: seq<Record>)
      ensures this.extra == extra
    {
      this.extra := extra;
    }
  }

  function Values(rs: seq<Record>): (out: seq<RecordValue>)
    reads rs
    ensures |out| == |rs| && forall i | 0 <= i < |rs| :: out[i] == rs[i].Value()
  {
    if rs == [] then [] else [rs[0].Value()] + Values(rs[1..])
  }

  /** No two places of the list are the same record. */
  ghost predicate Separate(rs: seq<Record>) { forall i, j | 0 <= i < j < |rs| :: rs[i] != rs[j] }

  method Copy(m: Message) returns (c: Message)
    ensures fresh(c) && (forall i | 0 <= i < |c.extra| :: fresh(c.extra[i])) && Separate(c.extra)
    ensures Values(c.extra) == old(Values(m.extra))
  {
    var rs: seq<Record> := [];
    var k := 0;
    while k < |m.extra|
      invariant k <= |m.extra| && |rs| == k
      invariant (forall i | 0 <= i < k :: fresh(rs[i])) && Separate(rs)
      invariant forall i | 0 <= i < k :: rs[i].Value() == old(m.extra[i].Value())
    {
      var r := new Record(m.extra[k].Value());
      rs := rs + [r];
      k := k + 1;
    }
    c := new Message(rs);
  }

  method ClientSubnetFromMessage(m: Message) returns (p: Prefix)
    ensures p == FromExtra(Values(m.extra))
  {
    ghost var vs := Values(m.extra);
    var i := 0;
    while i < |m.extra|
      invariant i <= |m.extra| && forall k | 0 <= k < i :: !HasSubnet(vs[k])
    {
      if m.extra[i].isOPT {
        var options := m.extra[i].options;
        var j := 0;
        while j < |options|
          invariant j <= |options| && forall k | 0 <= k < j :: !options[k].Subnet?
        {
          if options[j].Subnet? {
            SubnetAt(options, j);
            CarrierIs(vs, i);
            return ReadOption(options[j]);
          }
          j := j + 1;
        }
      }
      i := i + 1;
    }
    p := NoPrefix;
  }

  /** The search of setClientSubnet: where a subnet option is, or whether the last record can take one. */
  method FindSubnet(m: Message) returns (record: Option<nat>, option: Option<nat>)
    ensures var vs := Values(m.extra);
            if Carrier(vs).Some? then record == Carrier(vs) && option == SubnetIn(vs[record.value].options)
            else option.None? && record == if vs != [] && vs[|vs| - 1].Opt? then Some(|vs| - 1) else None
  {
    hide SubnetIn, Carrier, Values;
    ghost var vs := Values(m.extra);
    record := None;
    var i := 0;
    while i < |m.extra|
      invariant i <= |m.extra| && forall k | 0 <= k < i :: !HasSubnet(vs[k])
      invariant record == if i > 0 && vs[i - 1].Opt? then Some(i - 1) else None
    {
      record := None;
      if m.extra[i].isOPT {
        record := Some(i);
        var options := m.extra[i].options;
        var j := 0;
        while j < |options|
          invariant j <= |options| && forall k | 0 <= k < j :: !options[k].Subnet?
        {
          if options[j].Subnet? {
            SubnetAt(options, j);
            CarrierIs(vs, i);
            return record, Some(j);
          }
          j := j + 1;
        }
      }
      i := i + 1;
    }
    option := None;
  }

  /** Writes one OPT record's options in place; the other records of the message keep theirs. */
  method Rewrite(m: Message, i: nat, options: seq<Edns>)
    requires i < |m.extra| && Separate(m.extra) && m.extra[i].isOPT
    modifies m.extra[i]
    ensures Values(m.extra) == old(Values(m.extra))[i := Opt(options)]
  {
    ghost var vs := Values(m.extra);
    m.extra[i].options := options;
    assert forall k | 0 <= k < |m.extra| && k != i :: m.extra[k].Value() == vs[k];
  }

  /** The caller's message and its records are left alone: everything written is new. */
  method SetClientSubnet(m: Message, p: Prefix) returns (r: Message)
    requires p.IsValid()
    ensures fresh(r) && Values(r.extra) == SetSubnet(old(Values(m.extra)), p)
  {
    hide Values, SubnetIn, Carrier, NewSubnet, Prefix.IsValid;
    ghost var vs := Values(m.extra);
    var record, option := FindSubnet(m);
    if record.None? {
      var opt := new Record(Opt([NewSubnet(p)]));
      r := new Message(m.extra + [opt]);
      assert Values(r.extra) == vs + [Opt([NewSubnet(p)])];
    } else {
      r := Copy(m);
      var i := record.value;
      var options := r.extra[i].options;
      assert Opt(options) == r.extra[i].Value() == vs[i];
      Rewrite(r, i, if option.None? then options + [NewSubnet(p)] else options[option.value := NewSubnet(p)]);
    }
  }

  /** Drops the subnet options of every OPT record in place. */
  method Strip(m: Message)
    requires Separate(m.extra)
    modifies m.extra
    ensures Values(m.extra) == RemoveSubnet(old(Values(m.extra)))
  {
    hide Values, KeepOthers, RemoveSubnet;
    ghost var vs := Values(m.extra);
    var k := 0;
    while k < |m.extra|
      invariant k <= |m.extra| == |vs|
      invariant forall i | 0 <= i < k :: Values(m.extra)[i] == Stripped(vs[i])
      invariant forall i | k <= i < |vs| :: Values(m.extra)[i] == vs[i]
    {
      if m.extra[k].isOPT { Rewrite(m, k, KeepOthers(m.extra[k].options)); }
      k := k + 1;
    }
  }

  method RemoveClientSubnet(m: Message) returns (r: Message)
    ensures r == m || fresh(r)
    ensures r == m ==> Carrier(Values(m.extra)).None?
    ensures r != m ==> Values(r.extra) == RemoveSubnet(old(Values(m.extra)))
  {
    hide Values, SubnetIn, Carrier, KeepOthers, RemoveSubnet;
    var record, option := FindSubnet(m);
    if option.None? { return m; }
    r := Copy(m);
    Strip(r);
  }
}
