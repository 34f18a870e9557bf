/** Mutable-memory chronology: the encoder's timestamps, and what the multiset balance forces on any witness. */
module Chronology {

  import opened Modulus
  import opened Field
  import opened Gadgets

  const ImageBytes: nat := 131072
  const RowCount: nat := 16384
  const SlotCount: nat := 5

  datatype BusEvent = Other | Memory(address: int, write: bool, before: int, after: int)

  /** One memory event with the timestamp of its slot. */
  datatype Stamped = Stamped(stamp: int, address: int, write: bool, before: int, after: int) {
    /** The byte the event expects: the overwritten one, or the one read. */
    function Input(): int { if write then before else after }
  }

  /** A memory event with its predecessor column. */
  datatype Linked = Linked(event: Stamped, predecessor: int)

  function Timestamp(row: nat, slot: nat): int { row * SlotCount + slot + 1 }

  /** Memory events of one row, in slot order. */
  function RowEvents(row: nat, events: seq<BusEvent>): seq<Stamped> {
    if events == [] then []
    else
      var n := |events| - 1;
      RowEvents(row, events[..n])
      + (match events[n]
         case Other => []
         case Memory(address, write, before, after) => [Stamped(Timestamp(row, n), address, write, before, after)])
  }

  function AllEvents(blocks: seq<seq<BusEvent>>): seq<Stamped> {
    if blocks == [] then []
    else
      var n := |blocks| - 1;
      AllEvents(blocks[..n]) + RowEvents(n, blocks[n])
  }

  /** Stamp of the latest event at an address, or zero. */
  function Latest(events: seq<Stamped>, address: int): int {
    if events == [] then 0
    else
      var n := |events| - 1;
      if events[n].address == address then events[n].stamp else Latest(events[..n], address)
  }

  function Events(links: seq<Linked>): (r: seq<Stamped>)
    ensures |r| == |links|
  {
    seq(|links|, k requires 0 <= k < |links| => links[k].event)
  }

  /** Each predecessor is the latest earlier event at the same address. */
  predicate LatestLinks(links: seq<Linked>) {
    forall k :: 0 <= k < |links| ==> links[k].predecessor == Latest(Events(links)[..k], links[k].event.address)
  }

  // ----- the encoder -----

  /** At least one block, at most one per row, each with at most five events in the image. */
  predicate Encodable(blocks: seq<seq<BusEvent>>) {
    0 < |blocks| <= RowCount && forall row :: 0 <= row < |blocks| ==> RowEncodable(blocks[row])
  }

  predicate RowEncodable(events: seq<BusEvent>) {
    |events| <= SlotCount && forall slot :: 0 <= slot < |events| && events[slot].Memory? ==>
      0 <= events[slot].address < ImageBytes
  }

  ghost predicate TimestampsOf(timestamps: array<int>, events: seq<Stamped>)
    reads timestamps
  {
    timestamps.Length == ImageBytes && forall a :: 0 <= a < ImageBytes ==> timestamps[a] == Latest(events, a)
  }

  lemma AppendLink(links: seq<Linked>, next: Linked)
    requires LatestLinks(links) && next.predecessor == Latest(Events(links), next.event.address)
    ensures LatestLinks(links + [next]) && Events(links + [next]) == Events(links) + [next.event]
  {
    var all := links + [next];
    assert Events(all) == Events(links) + [next.event];
    forall k | 0 <= k < |all| ensures all[k].predecessor == Latest(Events(all)[..k], all[k].event.address) {
      if k < |links| {
        assert Events(all)[..k] == Events(links)[..k];
      } else {
        assert Events(all)[..k] == Events(links);
      }
    }
  }

  /** The per-address table after one more event. */
  lemma LatestAppend(events: seq<Stamped>, e: Stamped, a: int)
    ensures Latest(events + [e], a) == if e.address == a then e.stamp else Latest(events, a)
  {
    assert (events + [e])[..|events|] == events;
  }

  /** One memory event: its predecessor is read from the table, which then holds the new stamp. */
  method AppendMemoryEvent(timestamps: array<int>, ghost done: seq<Stamped>, e: Stamped) returns (link: Linked)
    requires TimestampsOf(timestamps, done) && 0 <= e.address < ImageBytes
    modifies timestamps
    ensures link == Linked(e, Latest(done, e.address))
    ensures TimestampsOf(timestamps, done + [e])
  {
    link := Linked(e, timestamps[e.address]);
    timestamps[e.address] := e.stamp;
    forall a | 0 <= a < ImageBytes ensures timestamps[a] == Latest(done + [e], a) {
      LatestAppend(done, e, a);
    }
  }

  /** The events of one row, slot by slot. */
  method AppendBlockEvents(timestamps: array<int>, row: nat, events: seq<BusEvent>, links: seq<Linked>)
    returns (ok: bool, all: seq<Linked>)
    requires TimestampsOf(timestamps, Events(links)) && LatestLinks(links)
    modifies timestamps
    ensures ok <==> RowEncodable(events)
    ensures ok ==>
            TimestampsOf(timestamps, Events(all)) && LatestLinks(all)
              && Events(all) == Events(links) + RowEvents(row, events)
  {
    hide Latest, LatestLinks, TimestampsOf, Events;
    ok, all := true, links;
    var slot := 0;
    while slot < |events|
      invariant 0 <= slot <= |events| && slot <= SlotCount
      invariant forall k :: 0 <= k < slot && events[k].Memory? ==> 0 <= events[k].address < ImageBytes
      invariant TimestampsOf(timestamps, Events(all)) && LatestLinks(all)
      invariant Events(all) == Events(links) + RowEvents(row, events[..slot])
    {
      if slot >= SlotCount { return false, all; }
      assert events[..slot + 1][..slot] == events[..slot];
      match events[slot] {
        case Other =>
        case Memory(address, write, before, after) =>
          if !(0 <= address < ImageBytes) { return false, all; }
          var e := Stamped(Timestamp(row, slot), address, write, before, after);
          var link := AppendMemoryEvent(timestamps, Events(all), e);
          AppendLink(all, link);
          all := all + [link];
      }
      slot := slot + 1;
    }
    assert events[..slot] == events;
  }

  /** `from_blocks`: the witness links and final timestamps of a list of blocks. */
  method EncodeBlocks(blocks: seq<seq<BusEvent>>) returns (ok: bool, all: seq<Linked>, timestamps: array<int>)
    ensures ok <==> Encodable(blocks)
    ensures ok ==> Events(all) == AllEvents(blocks) && LatestLinks(all) && TimestampsOf(timestamps, AllEvents(blocks))
    ensures ok ==> StampsBalanced(all, timestamps[..])
  {
    timestamps := new int[ImageBytes](_ => 0);
    ok, all := 0 < |blocks| <= RowCount, [];
    if !ok { return; }
    var row := 0;
    while row < |blocks|
      invariant 0 <= row <= |blocks| && ok
      invariant fresh(timestamps) && TimestampsOf(timestamps, Events(all)) && LatestLinks(all)
      invariant Events(all) == AllEvents(blocks[..row])
      invariant forall k :: 0 <= k < row ==> RowEncodable(blocks[k])
    {
      ok, all := AppendBlockEvents(timestamps, row, blocks[row], all);
      if !ok { return; }
      assert blocks[..row + 1][..row] == blocks[..row];
      row := row + 1;
    }
    assert blocks[..row] == blocks;
    EncodedBalance(blocks, all, timestamps[..]);
  }

  lemma EncodedBalance(blocks: seq<seq<BusEvent>>, links: seq<Linked>, stamps: seq<int>)
    requires Encodable(blocks) && Events(links) == AllEvents(blocks) && LatestLinks(links)
    requires LatestStamps(stamps, AllEvents(blocks))
    ensures StampsBalanced(links, stamps)
  {
    hide Latest, LatestLinks, AllEvents, StampsBalanced;
    AllInImage(blocks);
    forall k | 0 <= k < |links| ensures 0 <= links[k].event.address < ImageBytes {
      assert links[k].event == Events(links)[k];
    }
    StampsBalance(links, stamps);
  }

  // ----- timestamps increase and stay below 2^17 -----

  predicate Increasing(events: seq<Stamped>) {
    forall j, k :: 0 <= j < k < |events| ==> events[j].stamp < events[k].stamp
  }

  predicate Within(events: seq<Stamped>, low: int, high: int) {
    forall k :: 0 <= k < |events| ==> low < events[k].stamp <= high
  }

  lemma {:induction false} RowStamps(row: nat, events: seq<BusEvent>)
    ensures Increasing(RowEvents(row, events))
    ensures Within(RowEvents(row, events), row * SlotCount, row * SlotCount + |events|)
  {
    if events != [] { RowStamps(row, events[..|events| - 1]); }
  }

  /** Over every encodable block list stamps strictly increase from 1 and never pass 5 per row. */
  lemma {:induction false} StampsIncrease(blocks: seq<seq<BusEvent>>)
    requires forall row :: 0 <= row < |blocks| ==> |blocks[row]| <= SlotCount
    ensures Increasing(AllEvents(blocks)) && Within(AllEvents(blocks), 0, |blocks| * SlotCount)
  {
    if blocks != [] {
      var n := |blocks| - 1;
      StampsIncrease(blocks[..n]);
      RowStamps(n, blocks[n]);
      JoinIncreasing(AllEvents(blocks[..n]), RowEvents(n, blocks[n]), n * SlotCount, n * SlotCount + |blocks[n]|);
    }
  }

  lemma JoinIncreasing(a: seq<Stamped>, b: seq<Stamped>, middle: int, high: int)
    requires Increasing(a) && Increasing(b) && Within(a, 0, middle) && Within(b, middle, high) && 0 <= middle <= high
    ensures Increasing(a + b) && Within(a + b, 0, high)
  {
  }

  /** In the fixed geometry no timestamp overflows its seventeen bits. */
  lemma StampsFit(blocks: seq<seq<BusEvent>>)
    requires Encodable(blocks)
    ensures Increasing(AllEvents(blocks)) && Within(AllEvents(blocks), 0, ImageBytes - 1)
  {
    StampsIncrease(blocks);
    assert |blocks| * SlotCount <= RowCount * SlotCount;
  }

  // ----- the multiset balance -----

  datatype Token = Token(address: int, value: int, stamp: int)
  datatype Cell = Cell(value: int, stamp: int)

  type Table = map<int, Cell>

  ghost function Tokens(t: Table): multiset<Token> {
    multiset(set a | a in t :: Token(a, t[a].value, t[a].stamp))
  }

  ghost function Produced(links: seq<Linked>): multiset<Token> {
    if links == [] then multiset{}
    else multiset{Token(links[0].event.address, links[0].event.after, links[0].event.stamp)} + Produced(links[1..])
  }

  ghost function Consumed(links: seq<Linked>): multiset<Token> {
    if links == [] then multiset{}
    else multiset{Token(links[0].event.address, links[0].event.Input(), links[0].predecessor)} + Consumed(links[1..])
  }

  function Write(t: Table, e: Stamped): Table { t[e.address := Cell(e.after, e.stamp)] }

  function Final(t: Table, links: seq<Linked>): Table
    decreases |links|
  {
    if links == [] then t else Final(Write(t, links[0].event), links[1..])
  }

  /** Every event finds in its cell the byte and the stamp it claims. */
  predicate Consistent(t: Table, links: seq<Linked>)
    decreases |links|
  {
    links != [] ==>
      && links[0].event.address in t
      && t[links[0].event.address] == Cell(links[0].event.Input(), links[0].predecessor)
      && Consistent(Write(t, links[0].event), links[1..])
  }

  predicate Covers(t: Table, links: seq<Linked>) {
    forall k :: 0 <= k < |links| ==> links[k].event.address in t
  }

  lemma TokenCount(t: Table, x: Token)
    ensures Tokens(t)[x] == if x.address in t && t[x.address] == Cell(x.value, x.stamp) then 1 else 0
  {
    var s := set a | a in t :: Token(a, t[a].value, t[a].stamp);
    if x.address in t && t[x.address] == Cell(x.value, x.stamp) {
      assert x == Token(x.address, t[x.address].value, t[x.address].stamp);
      assert x in s;
    } else {
      assert x !in s;
    }
  }

  /** Writing a cell exchanges its token for the new one. */
  lemma WriteExchanges(t: Table, e: Stamped)
    requires e.address in t
    ensures
      var taken, left := Token(e.address, t[e.address].value, t[e.address].stamp), Token(e.address, e.after, e.stamp);
      Tokens(t) + multiset{left} == multiset{taken} + Tokens(Write(t, e))
  {
    var taken, left := Token(e.address, t[e.address].value, t[e.address].stamp), Token(e.address, e.after, e.stamp);
    forall x: Token
      ensures (Tokens(t) + multiset{left})[x] == (multiset{taken} + Tokens(Write(t, e)))[x]
    {
      TokenCount(t, x);
      TokenCount(Write(t, e), x);
    }
    assert Tokens(t) + multiset{left} == multiset{taken} + Tokens(Write(t, e));
  }

  lemma Cancel(a: multiset<Token>, b: multiset<Token>, x: multiset<Token>, y: multiset<Token>, z: multiset<Token>,
               w: multiset<Token>)
    requires a + x == y + b && b + z == w
    ensures a + (x + z) == y + w
  {
    assert a + (x + z) == (a + x) + z == (y + b) + z == y + (b + z);
  }

  /** A consistent history balances: initial and produced tokens are the consumed and final ones. */
  lemma {:induction false} ConsistentBalances(t: Table, links: seq<Linked>)
    requires Consistent(t, links)
    ensures Tokens(t) + Produced(links) == Consumed(links) + Tokens(Final(t, links))
    decreases |links|
  {
    hide Tokens;
    if links != [] {
      var e := links[0].event;
      var t' := Write(t, e);
      WriteExchanges(t, e);
      ConsistentBalances(t', links[1..]);
      var left, taken := multiset{Token(e.address, e.after, e.stamp)},
        multiset{Token(e.address, e.Input(), links[0].predecessor)};
      Cancel(Tokens(t), Tokens(t'), left, taken, Produced(links[1..]),
             Consumed(links[1..]) + Tokens(Final(t', links[1..])));
    }
  }

  /** Slots in order, each consuming an earlier stamp. */
  predicate Ordered(links: seq<Linked>) {
    && (forall j, k :: 0 <= j < k < |links| ==> links[j].event.stamp < links[k].event.stamp)
    && (forall k :: 0 <= k < |links| ==> links[k].predecessor < links[k].event.stamp)
  }

  lemma {:induction false} ProducedStamps(links: seq<Linked>, low: int, x: Token)
    requires (forall k :: 0 <= k < |links| ==> links[k].event.stamp >= low) && x.stamp < low
    ensures Produced(links)[x] == 0
  {
    if links != [] { ProducedStamps(links[1..], low, x); }
  }

  lemma TakeOne(a: multiset<Token>, p: multiset<Token>, left: Token, taken: Token, c: multiset<Token>,
                f: multiset<Token>, b: multiset<Token>)
    requires a + (multiset{left} + p) == (multiset{taken} + c) + f && a + multiset{left} == multiset{taken} + b
    ensures b + p == c + f
  {
    assert multiset{taken} + (b + p) == (multiset{taken} + b) + p == (a + multiset{left}) + p
      == a + (multiset{left} + p);
    assert multiset{taken} + (b + p) == multiset{taken} + (c + f);
    assert (multiset{taken} + (b + p)) - multiset{taken} == b + p;
    assert (multiset{taken} + (c + f)) - multiset{taken} == c + f;
  }

  /** An event whose token balances must consume the current cell: all later tokens carry later stamps. */
  lemma ConsumesCurrent(t: Table, links: seq<Linked>, f: multiset<Token>)
    requires links != [] && Ordered(links) && Tokens(t) + Produced(links) == Consumed(links) + f
    ensures links[0].event.address in t
    ensures t[links[0].event.address] == Cell(links[0].event.Input(), links[0].predecessor)
  {
    var x := Token(links[0].event.address, links[0].event.Input(), links[0].predecessor);
    assert (Consumed(links) + f)[x] >= 1;
    ProducedStamps(links, links[0].event.stamp, x);
    TokenCount(t, x);
    assert (Tokens(t) + Produced(links))[x] == Tokens(t)[x];
  }

  /** The converse: order and balance alone force every event to find the current byte and stamp of its cell. */
  lemma {:induction false} BalanceForcesHistory(t: Table, links: seq<Linked>, f: multiset<Token>)
    requires Ordered(links) && Tokens(t) + Produced(links) == Consumed(links) + f
    ensures Consistent(t, links) && f == Tokens(Final(t, links))
    decreases |links|
  {
    hide Tokens;
    if links == [] {
      assert Tokens(t) + multiset{} == Tokens(t);
      assert multiset{} + f == f;
    } else {
      var e, rest := links[0].event, links[1..];
      ConsumesCurrent(t, links, f);
      WriteExchanges(t, e);
      TakeOne(Tokens(t), Produced(rest), Token(e.address, e.after, e.stamp),
              Token(e.address, e.Input(), links[0].predecessor),
              Consumed(rest), f, Tokens(Write(t, e)));
      BalanceForcesHistory(Write(t, e), rest, f);
    }
  }

  // ----- what a consistent history means -----

  /** The last byte written or seen at an address before event `k`, from the initial table. */
  function ValueBefore(t: Table, events: seq<Stamped>, address: int): int
    requires address in t
  {
    if events == [] then t[address].value
    else
      var n := |events| - 1;
      if events[n].address == address then events[n].after else ValueBefore(t, events[..n], address)
  }

  predicate Fresh(t: Table) { forall a :: a in t ==> t[a].stamp == 0 }

  lemma {:induction false} ConsistentLinks(t: Table, t0: Table, done: seq<Stamped>, links: seq<Linked>, k: nat)
    requires Consistent(t, links) && k < |links|
    requires t.Keys == t0.Keys && forall a :: a in t0 ==>
             t[a] == Cell(ValueBefore(t0, done, a), if Latest(done, a) == 0 then t0[a].stamp else Latest(done, a))
    requires forall j :: 0 <= j < |links| ==> links[j].event.stamp > 0
    ensures links[k].event.address in t0
    ensures
      var before, a := done + Events(links)[..k], links[k].event.address;
      && links[k].event.Input() == ValueBefore(t0, before, a)
      && links[k].predecessor == (if Latest(before, a) == 0 then t0[a].stamp else Latest(before, a))
    decreases |links|
  {
    var e := links[0].event;
    if k == 0 {
      assert done + Events(links)[..0] == done;
    } else {
      forall a | a in t0
        ensures ValueBefore(t0, done + [e], a) == (if e.address == a then e.after else ValueBefore(t0, done, a))
        ensures Latest(done + [e], a) == (if e.address == a then e.stamp else Latest(done, a))
      {
        assert (done + [e])[..|done|] == done;
      }
      ConsistentLinks(Write(t, e), t0, done + [e], links[1..], k - 1);
      assert done + [e] + Events(links[1..])[..k - 1] == done + Events(links)[..k];
    }
  }

  /**
    * Any ordered witness that balances from a fresh table is a correct memory: each event sees the byte last left at
    * its address, and its predecessor is the latest earlier event there, or zero.
    */
  lemma {:induction false} BalanceForcesMemory(t: Table, links: seq<Linked>, f: multiset<Token>, k: nat)
    requires Fresh(t) && Ordered(links) && (forall j :: 0 <= j < |links| ==> links[j].event.stamp > 0)
    requires Tokens(t) + Produced(links) == Consumed(links) + f && k < |links|
    ensures links[k].event.address in t
    ensures links[k].event.Input() == ValueBefore(t, Events(links)[..k], links[k].event.address)
    ensures links[k].predecessor == Latest(Events(links)[..k], links[k].event.address)
  {
    hide Tokens;
    BalanceForcesHistory(t, links, f);
    ConsistentLinks(t, t, [], links, k);
    assert [] + Events(links)[..k] == Events(links)[..k];
  }

  lemma ValueAppend(t: Table, events: seq<Stamped>, e: Stamped, a: int)
    requires a in t
    ensures ValueBefore(t, events + [e], a) == if e.address == a then e.after else ValueBefore(t, events, a)
  {
    assert (events + [e])[..|events|] == events;
  }

  lemma ShiftEvents(done: seq<Stamped>, links: seq<Linked>, k: nat)
    requires k < |links|
    ensures done + [links[0].event] + Events(links[1..])[..k] == done + Events(links)[..k + 1]
  {
  }

  /** Link `k` claims the latest stamp and the last byte at its address, after `done`. */
  predicate Honest(t0: Table, done: seq<Stamped>, links: seq<Linked>, k: nat)
    requires k < |links| && links[k].event.address in t0
  {
    && links[k].predecessor == Latest(done + Events(links)[..k], links[k].event.address)
    && links[k].event.Input() == ValueBefore(t0, done + Events(links)[..k], links[k].event.address)
  }

  lemma {:induction false} EncoderConsistent(t: Table, t0: Table, done: seq<Stamped>, links: seq<Linked>)
    requires Covers(t0, links) && t.Keys == t0.Keys && Fresh(t0)
    requires forall a :: a in t0 ==> t[a] == Cell(ValueBefore(t0, done, a), Latest(done, a))
    requires forall k: nat :: k < |links| ==> Honest(t0, done, links, k)
    ensures Consistent(t, links)
    decreases |links|
  {
    hide Latest, ValueBefore, Events;
    if links != [] {
      var e, rest := links[0].event, links[1..];
      assert Honest(t0, done, links, 0);
      assert done + Events(links)[..0] == done;
      forall a | a in t0 ensures Write(t, e)[a] == Cell(ValueBefore(t0, done + [e], a), Latest(done + [e], a)) {
        LatestAppend(done, e, a);
        ValueAppend(t0, done, e, a);
      }
      forall k: nat | k < |rest| ensures Honest(t0, done + [e], rest, k) {
        assert Honest(t0, done, links, k + 1);
        ShiftEvents(done, links, k);
      }
      EncoderConsistent(Write(t, e), t0, done + [e], rest);
    }
  }

  /** The cells after all events: the last byte left and the latest stamp of each address. */
  function Settled(t0: Table, events: seq<Stamped>): Table {
    map a | a in t0 :: Cell(ValueBefore(t0, events, a), Latest(events, a))
  }

  /** Whatever the events claim, they leave the settled cells. */
  lemma {:induction false} FinalSettled(t0: Table, done: seq<Stamped>, links: seq<Linked>)
    requires Covers(t0, links)
    ensures Final(Settled(t0, done), links) == Settled(t0, done + Events(links))
    decreases |links|
  {
    hide Latest, ValueBefore;
    if links == [] {
      assert done + Events(links) == done;
    } else {
      var e, rest := links[0].event, links[1..];
      forall a | a in t0 ensures Write(Settled(t0, done), e)[a] == Settled(t0, done + [e])[a] {
        LatestAppend(done, e, a);
        ValueAppend(t0, done, e, a);
      }
      assert Write(Settled(t0, done), e) == Settled(t0, done + [e]);
      FinalSettled(t0, done + [e], rest);
      assert done + [e] + Events(rest) == done + Events(links);
    }
  }

  lemma FreshSettled(t: Table)
    requires Fresh(t)
    ensures Settled(t, []) == t
  {
  }

  /** Every event claims the byte last left at its address. */
  predicate MemoryHistory(t: Table, links: seq<Linked>)
    requires Covers(t, links)
  {
    forall k :: 0 <= k < |links| ==>
      links[k].event.Input() == ValueBefore(t, Events(links)[..k], links[k].event.address)
  }

  /** The encoder's links balance, up to the last byte and latest stamp of each cell, when they are a memory history. */
  lemma {:induction false} EncoderBalances(t: Table, links: seq<Linked>)
    requires Covers(t, links) && Fresh(t) && LatestLinks(links) && MemoryHistory(t, links)
    ensures Tokens(t) + Produced(links) == Consumed(links) + Tokens(Settled(t, Events(links)))
  {
    hide Tokens, Settled, Latest, ValueBefore;
    forall k: nat | k < |links| ensures Honest(t, [], links, k) {
      assert [] + Events(links)[..k] == Events(links)[..k];
    }
    FreshCells(t);
    EncoderConsistent(t, t, [], links);
    ConsistentBalances(t, links);
    FreshSettled(t);
    FinalSettled(t, [], links);
    assert [] + Events(links) == Events(links);
  }

  lemma FreshCells(t: Table)
    requires Fresh(t)
    ensures forall a :: a in t ==> t[a] == Cell(ValueBefore(t, [], a), Latest([], a))
  {
  }

  /** Ordered links with latest predecessors balance exactly when they are a memory history. */
  lemma BalancesExactly(t: Table, links: seq<Linked>)
    requires Covers(t, links) && Fresh(t) && LatestLinks(links) && Ordered(links)
    requires forall j :: 0 <= j < |links| ==> links[j].event.stamp > 0
    ensures Tokens(t) + Produced(links) == Consumed(links) + Tokens(Settled(t, Events(links)))
            <==> MemoryHistory(t, links)
  {
    hide Tokens, Settled, Latest, ValueBefore, Ordered, Events;
    if MemoryHistory(t, links) {
      EncoderBalances(t, links);
    } else if Tokens(t) + Produced(links) == Consumed(links) + Tokens(Settled(t, Events(links))) {
      forall k: nat | k < |links|
        ensures links[k].event.Input() == ValueBefore(t, Events(links)[..k], links[k].event.address)
      {
        BalanceForcesMemory(t, links, Tokens(Settled(t, Events(links))), k);
      }
    }
  }

  // ----- stamps alone balance for every list -----

  function Blank(e: Stamped): Stamped { e.(before := 0, after := 0) }

  /** The links without their bytes. */
  function Erase(links: seq<Linked>): (r: seq<Linked>)
    ensures |r| == |links|
  {
    seq(|links|, k requires 0 <= k < |links| => Linked(Blank(links[k].event), links[k].predecessor))
  }

  function Blanks(events: seq<Stamped>): (r: seq<Stamped>)
    ensures |r| == |events|
  {
    seq(|events|, k requires 0 <= k < |events| => Blank(events[k]))
  }

  /** Stamp zero in every cell of the image. */
  function FreshImage(): Table { StampTable(seq(ImageBytes, _ => 0)) }

  /** The timestamp table as cells. */
  function StampTable(stamps: seq<int>): Table
    requires |stamps| == ImageBytes
  {
    map a | 0 <= a < ImageBytes :: Cell(0, stamps[a])
  }

  lemma {:induction false} LatestBlanks(events: seq<Stamped>, a: int)
    ensures Latest(Blanks(events), a) == Latest(events, a)
  {
    if events != [] {
      var n := |events| - 1;
      assert Blanks(events)[..n] == Blanks(events[..n]);
      LatestBlanks(events[..n], a);
    }
  }

  lemma {:induction false} ValueBlanks(t: Table, events: seq<Stamped>, a: int)
    requires a in t && t[a].value == 0
    ensures ValueBefore(t, Blanks(events), a) == 0
  {
    if events != [] {
      var n := |events| - 1;
      assert Blanks(events)[..n] == Blanks(events[..n]);
      ValueBlanks(t, events[..n], a);
    }
  }

  lemma ErasedEvents(links: seq<Linked>)
    ensures Events(Erase(links)) == Blanks(Events(links))
    ensures forall k :: 0 <= k < |links| ==> Events(Erase(links))[..k] == Blanks(Events(links)[..k])
  {
    var e := Events(Erase(links));
    assert e == Blanks(Events(links));
    forall k | 0 <= k < |links| ensures e[..k] == Blanks(Events(links)[..k]) {}
  }

  predicate InImage(links: seq<Linked>) {
    forall k :: 0 <= k < |links| ==> 0 <= links[k].event.address < ImageBytes
  }

  lemma ErasedLinks(t: Table, links: seq<Linked>)
    requires InImage(links) && LatestLinks(links)
    requires forall a :: 0 <= a < ImageBytes ==> a in t && t[a].value == 0
    ensures Covers(t, Erase(links)) && LatestLinks(Erase(links)) && MemoryHistory(t, Erase(links))
  {
    hide Latest, ValueBefore, Events, Blanks;
    var r := Erase(links);
    ErasedEvents(links);
    forall k | 0 <= k < |r|
      ensures r[k].event.address in t && r[k].predecessor == Latest(Events(r)[..k], r[k].event.address)
      ensures r[k].event.Input() == ValueBefore(t, Events(r)[..k], r[k].event.address)
    {
      LatestBlanks(Events(links)[..k], r[k].event.address);
      ValueBlanks(t, Events(links)[..k], r[k].event.address);
    }
  }

  /** `stamps` are the latest ones of `events` over the image. */
  predicate LatestStamps(stamps: seq<int>, events: seq<Stamped>) {
    |stamps| == ImageBytes && forall a :: 0 <= a < ImageBytes ==> stamps[a] == Latest(events, a)
  }

  /** Initial zeros and produced stamps are the consumed predecessors and the final stamps. */
  ghost predicate StampsBalanced(links: seq<Linked>, stamps: seq<int>)
    requires |stamps| == ImageBytes
  {
    Tokens(FreshImage()) + Produced(Erase(links)) == Consumed(Erase(links)) + Tokens(StampTable(stamps))
  }

  /** For every list of events, whatever bytes it claims, the stamps balance. */
  lemma StampsBalance(links: seq<Linked>, stamps: seq<int>)
    requires InImage(links) && LatestLinks(links) && LatestStamps(stamps, Events(links))
    ensures StampsBalanced(links, stamps)
  {
    hide Latest, ValueBefore, Events, Tokens, Produced, Consumed, LatestLinks, Erase, MemoryHistory, Covers;
    var t, r := FreshImage(), Erase(links);
    ErasedLinks(t, links);
    EncoderBalances(t, r);
    ErasedEvents(links);
    forall a | a in t ensures Settled(t, Events(r))[a] == StampTable(stamps)[a] {
      LatestBlanks(Events(links), a);
      ValueBlanks(t, Events(links), a);
    }
    assert Settled(t, Events(r)) == StampTable(stamps);
  }

  lemma {:induction false} RowInImage(row: nat, events: seq<BusEvent>)
    requires RowEncodable(events)
    ensures forall k :: 0 <= k < |RowEvents(row, events)| ==> 0 <= RowEvents(row, events)[k].address < ImageBytes
  {
    if events != [] {
      assert RowEncodable(events[..|events| - 1]);
      RowInImage(row, events[..|events| - 1]);
    }
  }

  lemma {:induction false} AllInImage(blocks: seq<seq<BusEvent>>)
    requires forall row :: 0 <= row < |blocks| ==> RowEncodable(blocks[row])
    ensures forall k :: 0 <= k < |AllEvents(blocks)| ==> 0 <= AllEvents(blocks)[k].address < ImageBytes
  {
    if blocks != [] {
      AllInImage(blocks[..|blocks| - 1]);
      RowInImage(|blocks| - 1, blocks[|blocks| - 1]);
    }
  }

  // ----- a whole table of rows -----

  /** Columns of one bus slot: selectors, predecessor and delta bits, and the event it carries. */
  datatype SlotColumns = SlotColumns(
    selected: int, write: int, predecessor: seq<int>, delta: seq<int>, address: int, before: int, after: int)

  datatype MemoryRow = MemoryRow(index: seq<int>, slots: seq<SlotColumns>) {
    predicate Shape() {
      && |index| == 14 && |slots| == SlotCount
      && forall i :: 0 <= i < SlotCount ==> |slots[i].predecessor| == 17 && |slots[i].delta| == 17
    }

    /** Predecessor and delta columns are bits; the identities below do not say so. */
    predicate BitValued() {
      Shape() && forall i :: 0 <= i < SlotCount ==> Bits(slots[i].predecessor) && Bits(slots[i].delta)
    }

    /** The boolean identities of the row, and the chronology identity of every slot. */
    predicate Identities()
      requires Shape()
    {
      && BooleanIdentities(index)
      && forall i :: 0 <= i < SlotCount ==> BooleanIdentities([slots[i].selected, slots[i].write]) && SlotIdentity(i)
    }

    predicate SlotIdentity(i: nat)
      requires Shape() && i < SlotCount
    {
      Zero(slots[i].selected
           * (Packed(index) * SlotCount + i + 1 - Packed(slots[i].predecessor) - Packed(slots[i].delta) - 1))
    }
  }

  /** The row-index columns hold the row's own index. */
  predicate Clocked(rows: seq<MemoryRow>) {
    |rows| <= RowCount && forall k :: 0 <= k < |rows| ==> rows[k].Shape() && Packed(rows[k].index) == k
  }

  function SlotLinks(row: nat, slot: nat, s: SlotColumns): seq<Linked> {
    if s.selected == 1 then
      [Linked(Stamped(Timestamp(row, slot), s.address, s.write == 1, s.before, s.after), Packed(s.predecessor))]
    else []
  }

  function RowLinks(row: nat, slots: seq<SlotColumns>): seq<Linked> {
    if slots == [] then []
    else
      var n := |slots| - 1;
      RowLinks(row, slots[..n]) + SlotLinks(row, n, slots[n])
  }

  /** The events of a table with the predecessors its columns claim. */
  function TableLinks(rows: seq<MemoryRow>): seq<Linked> {
    if rows == [] then []
    else
      var n := |rows| - 1;
      TableLinks(rows[..n]) + RowLinks(n, rows[n].slots)
  }

  predicate Spans(links: seq<Linked>, low: int, high: int) {
    forall k :: 0 <= k < |links| ==> low < links[k].event.stamp <= high
  }

  lemma JoinOrdered(a: seq<Linked>, b: seq<Linked>, low: int, middle: int, high: int)
    requires Ordered(a) && Ordered(b) && Spans(a, low, middle) && Spans(b, middle, high) && low <= middle <= high
    ensures Ordered(a + b) && Spans(a + b, low, high)
  {
  }

  lemma EqChronology(selected: int, current: int, predecessor: int, delta: int)
    requires selected == 1 && 0 < current < ImageBytes && 0 <= predecessor < ImageBytes && 0 <= delta < ImageBytes
    requires Zero(selected * (current - predecessor - delta - 1))
    ensures predecessor < current && delta == current - predecessor - 1
  {
    ZeroIsZero(current - predecessor - delta - 1);
  }

  lemma StampBits(b: seq<int>)
    requires |b| == 17 && Bits(b)
    ensures 0 <= Packed(b) < ImageBytes
  {
    PackedRange(b);
    Pow2Below(17, 17);
  }

  /** A selected slot claims an earlier stamp. */
  lemma SlotOrdered(r: MemoryRow, row: nat, i: nat)
    requires r.BitValued() && r.Identities() && Packed(r.index) == row < RowCount && i < SlotCount
    ensures Ordered(SlotLinks(row, i, r.slots[i]))
    ensures Spans(SlotLinks(row, i, r.slots[i]), row * SlotCount + i, row * SlotCount + i + 1)
  {
    hide Packed, Zero, BooleanIdentities;
    StampBits(r.slots[i].predecessor);
    StampBits(r.slots[i].delta);
    if r.slots[i].selected == 1 {
      assert r.SlotIdentity(i);
      EqChronology(r.slots[i].selected, Timestamp(row, i), Packed(r.slots[i].predecessor), Packed(r.slots[i].delta));
    }
  }

  lemma {:induction false} RowOrdered(r: MemoryRow, row: nat, n: nat)
    requires r.BitValued() && r.Identities() && Packed(r.index) == row < RowCount && n <= SlotCount
    ensures Ordered(RowLinks(row, r.slots[..n]))
    ensures Spans(RowLinks(row, r.slots[..n]), row * SlotCount, row * SlotCount + n)
  {
    hide Packed, MemoryRow.Identities, Ordered, Spans;
    if n == 0 {
      EmptyOrdered(row * SlotCount, row * SlotCount);
    } else {
      RowOrdered(r, row, n - 1);
      SlotOrdered(r, row, n - 1);
      assert r.slots[..n][..n - 1] == r.slots[..n - 1] && r.slots[..n][n - 1] == r.slots[n - 1];
      JoinOrdered(RowLinks(row, r.slots[..n - 1]), SlotLinks(row, n - 1, r.slots[n - 1]),
                  row * SlotCount, row * SlotCount + n - 1, row * SlotCount + n);
    }
  }

  lemma EmptyOrdered(low: int, high: int)
    ensures Ordered([]) && Spans([], low, high)
  {
  }

  lemma TableStep(rows: seq<MemoryRow>, n: nat)
    requires 0 < n <= |rows|
    ensures TableLinks(rows[..n]) == TableLinks(rows[..n - 1]) + RowLinks(n - 1, rows[n - 1].slots)
  {
    assert rows[..n][..n - 1] == rows[..n - 1] && rows[..n][n - 1] == rows[n - 1];
  }

  predicate Accepted(rows: seq<MemoryRow>) {
    Clocked(rows) && forall k :: 0 <= k < |rows| ==> rows[k].BitValued() && rows[k].Identities()
  }

  lemma AcceptedRow(rows: seq<MemoryRow>, k: nat)
    requires Accepted(rows) && k < |rows|
    ensures rows[k].BitValued() && rows[k].Identities() && Packed(rows[k].index) == k < RowCount
    ensures |rows[k].slots| == SlotCount
  {
    hide Packed, MemoryRow.Identities;
  }

  /** The identities of all rows put the table's events in order, each after the stamp it consumes. */
  lemma {:induction false} TableOrdered(rows: seq<MemoryRow>, n: nat)
    requires Accepted(rows) && n <= |rows|
    ensures Ordered(TableLinks(rows[..n])) && Spans(TableLinks(rows[..n]), 0, n * SlotCount)
  {
    hide Packed, MemoryRow.Identities, Ordered, Spans, Accepted, RowLinks, TableLinks, MemoryRow.BitValued;
    if n == 0 {
      EmptyOrdered(0, 0);
      EmptyTable(rows);
    } else {
      TableOrdered(rows, n - 1);
      AcceptedRow(rows, n - 1);
      RowOrdered(rows[n - 1], n - 1, SlotCount);
      assert rows[n - 1].slots[..SlotCount] == rows[n - 1].slots;
      TableStep(rows, n);
      JoinOrdered(TableLinks(rows[..n - 1]), RowLinks(n - 1, rows[n - 1].slots), 0, (n - 1) * SlotCount, n * SlotCount);
    }
  }

  lemma EmptyTable(rows: seq<MemoryRow>)
    ensures TableLinks(rows[..0]) == []
  {
  }

  /**
    * The converse chronology over a whole table: bit-valued columns, the row identities, and the token balance from a
    * fresh memory force every predecessor to be the latest earlier event at its address, or zero, and every input byte
    * to be the last one left there.
    */
  lemma {:induction false} TableForcesMemory(rows: seq<MemoryRow>, t: Table, f: multiset<Token>, k: nat)
    requires Accepted(rows) && Fresh(t) && Tokens(t) + Produced(TableLinks(rows)) == Consumed(TableLinks(rows)) + f
    requires k < |TableLinks(rows)|
    ensures
      var links := TableLinks(rows);
      var e, earlier := links[k].event, Events(links)[..k];
      && e.address in t
      && links[k].predecessor == Latest(earlier, e.address)
      && e.Input() == ValueBefore(t, earlier, e.address)
  {
    hide Tokens, Produced, Consumed, Accepted, TableLinks, Latest, ValueBefore;
    TableOrdered(rows, |rows|);
    assert rows[..|rows|] == rows;
    BalanceForcesMemory(t, TableLinks(rows), f, k);
  }

  // ----- the encoder's table -----

  function EmptySlot(): SlotColumns { SlotColumns(0, 0, BitsOf(0, 17), BitsOf(0, 17), 0, 0, 0) }

  /** A slot as `append_memory_event` fills it, after the events `done`. */
  function EncodeSlot(row: nat, slot: nat, e: BusEvent, done: seq<Stamped>): (s: SlotColumns)
    ensures |s.predecessor| == 17 && |s.delta| == 17
  {
    match e
    case Other => EmptySlot()
    case Memory(address, write, before, after) =>
      var predecessor := Latest(done, address);
      SlotColumns(1, AsBit(write), BitsOf(predecessor, 17), BitsOf(Timestamp(row, slot) - predecessor - 1, 17),
                  address, before, after)
  }

  function EncodeRow(row: nat, events: seq<BusEvent>, done: seq<Stamped>): (r: MemoryRow)
    ensures r.Shape()
  {
    MemoryRow(BitsOf(row, 14), seq(SlotCount, i requires 0 <= i < SlotCount => SlotAt(row, events, done, i)))
  }

  function SlotAt(row: nat, events: seq<BusEvent>, done: seq<Stamped>, i: nat): (s: SlotColumns)
    ensures |s.predecessor| == 17 && |s.delta| == 17
  {
    if i < |events| then EncodeSlot(row, i, events[i], done + RowEvents(row, events[..i])) else EmptySlot()
  }

  function EncodeTable(blocks: seq<seq<BusEvent>>): (rows: seq<MemoryRow>)
    ensures |rows| == |blocks| && forall k :: 0 <= k < |rows| ==> rows[k].Shape()
  {
    seq(|blocks|, k requires 0 <= k < |blocks| => EncodeRow(k, blocks[k], AllEvents(blocks[..k])))
  }

  lemma {:induction false} LatestBelow(events: seq<Stamped>, address: int, high: int)
    requires Within(events, 0, high) && 0 <= high
    ensures 0 <= Latest(events, address) <= high
  {
    if events != [] { LatestBelow(events[..|events| - 1], address, high); }
  }

  lemma StampFits(x: int)
    requires 0 <= x < ImageBytes
    ensures Packed(BitsOf(x, 17)) == x
  {
    Pow2Below(17, 17);
    PackedBitsOf(x, 17);
  }

  /** Stamps before a slot of an encodable list. */
  lemma DoneWithin(blocks: seq<seq<BusEvent>>, row: nat, slot: nat)
    requires Encodable(blocks) && row < |blocks| && slot <= |blocks[row]|
    ensures Within(AllEvents(blocks[..row]) + RowEvents(row, blocks[row][..slot]), 0, row * SlotCount + slot)
  {
    StampsIncrease(blocks[..row]);
    RowStamps(row, blocks[row][..slot]);
  }

  lemma EncodedSlotAccepted(blocks: seq<seq<BusEvent>>, row: nat, i: nat)
    requires Encodable(blocks) && row < |blocks| && i < SlotCount
    ensures
      var r := EncodeTable(blocks)[row];
      r.Shape() && r.SlotIdentity(i) && Bits(r.slots[i].predecessor) && Bits(r.slots[i].delta)
      && BooleanIdentities([r.slots[i].selected, r.slots[i].write])
      && SlotLinks(row, i, r.slots[i])
         == (if i < |blocks[row]| && blocks[row][i].Memory?
             then var e := blocks[row][i];
                  [Linked(Stamped(Timestamp(row, i), e.address, e.write, e.before, e.after),
                          Latest(AllEvents(blocks[..row]) + RowEvents(row, blocks[row][..i]), e.address))]
             else [])
  {
    hide Packed, BitsOf, Pow2, Latest, AllEvents, RowEvents;
    var r := EncodeTable(blocks)[row];
    EncodedIndex(row);
    StampFits(0);
    if i < |blocks[row]| && blocks[row][i].Memory? {
      var done := AllEvents(blocks[..row]) + RowEvents(row, blocks[row][..i]);
      DoneWithin(blocks, row, i);
      LatestBelow(done, blocks[row][i].address, row * SlotCount + i);
      var predecessor := Latest(done, blocks[row][i].address);
      StampFits(predecessor);
      StampFits(Timestamp(row, i) - predecessor - 1);
      BooleanPair(1, AsBit(blocks[row][i].write));
    } else {
      BooleanPair(0, 0);
    }
    ZeroHolds(0);
  }

  lemma EncodedIndex(row: nat)
    requires row < RowCount
    ensures Packed(BitsOf(row, 14)) == row
  {
    PowerValues();
    PackedBitsOf(row, 14);
  }

  lemma BooleanPair(a: int, b: int)
    requires Bit(a) && Bit(b)
    ensures BooleanIdentities([a, b])
  {
    ZeroHolds(0);
  }

  /** The encoder's table meets every row identity, with bit columns and its own row index. */
  lemma TableAccepted(blocks: seq<seq<BusEvent>>)
    requires Encodable(blocks)
    ensures Accepted(EncodeTable(blocks))
  {
    hide Packed, BitsOf, AllEvents, RowEvents, BooleanIdentities, MemoryRow.SlotIdentity, SlotLinks, EncodeRow, Bits;
    forall k | 0 <= k < |blocks|
      ensures EncodeTable(blocks)[k].BitValued() && EncodeTable(blocks)[k].Identities()
              && Packed(EncodeTable(blocks)[k].index) == k
    {
      forall i | 0 <= i < SlotCount
        ensures
          var r := EncodeTable(blocks)[k];
          r.Shape() && r.SlotIdentity(i) && Bits(r.slots[i].predecessor) && Bits(r.slots[i].delta)
          && BooleanIdentities([r.slots[i].selected, r.slots[i].write])
      {
        EncodedSlotAccepted(blocks, k, i);
      }
      EncodedRowIndex(k, blocks[k], AllEvents(blocks[..k]));
    }
  }

  lemma EncodedRowIndex(row: nat, events: seq<BusEvent>, done: seq<Stamped>)
    requires row < RowCount
    ensures Packed(EncodeRow(row, events, done).index) == row && BooleanIdentities(EncodeRow(row, events, done).index)
  {
    EncodedIndex(row);
    BooleanColumns(BitsOf(row, 14));
  }

  // The links of the encoder's table are those of `EncodeBlocks`.

  lemma {:induction false} RowLinksEncoded(blocks: seq<seq<BusEvent>>, row: nat, n: nat, links: seq<Linked>)
    requires Encodable(blocks) && row < |blocks| && n <= SlotCount
    requires LatestLinks(links) && Events(links) == AllEvents(blocks[..row])
    ensures
      var m := if n <= |blocks[row]| then n else |blocks[row]|;
      var all := links + RowLinks(row, EncodeTable(blocks)[row].slots[..n]);
      LatestLinks(all) && Events(all) == AllEvents(blocks[..row]) + RowEvents(row, blocks[row][..m])
  {
    hide Latest, AllEvents, LatestLinks, EncodeRow, SlotLinks, RowEncodable;
    var slots := EncodeTable(blocks)[row].slots;
    if n == 0 {
      assert links + RowLinks(row, slots[..0]) == links;
      assert blocks[row][..0] == [];
    } else {
      RowLinksEncoded(blocks, row, n - 1, links);
      assert slots[..n][..n - 1] == slots[..n - 1];
      var prior := links + RowLinks(row, slots[..n - 1]);
      EncodedSlotAccepted(blocks, row, n - 1);
      var added := SlotLinks(row, n - 1, slots[n - 1]);
      assert links + RowLinks(row, slots[..n]) == prior + added;
      if n - 1 < |blocks[row]| {
        assert blocks[row][..n][..n - 1] == blocks[row][..n - 1];
        if blocks[row][n - 1].Memory? {
          AppendLink(prior, added[0]);
          assert prior + [added[0]] == prior + added;
        } else {
          assert prior + added == prior;
        }
      } else {
        assert prior + added == prior;
      }
    }
  }

  lemma EventsStep(blocks: seq<seq<BusEvent>>, n: nat)
    requires 0 < n <= |blocks|
    ensures AllEvents(blocks[..n]) == AllEvents(blocks[..n - 1]) + RowEvents(n - 1, blocks[n - 1])
  {
    assert blocks[..n][..n - 1] == blocks[..n - 1] && blocks[..n][n - 1] == blocks[n - 1];
  }

  lemma {:induction false} TableLinksEncoded(blocks: seq<seq<BusEvent>>, n: nat)
    requires Encodable(blocks) && n <= |blocks|
    ensures
      var links := TableLinks(EncodeTable(blocks)[..n]);
      LatestLinks(links) && Events(links) == AllEvents(blocks[..n])
  {
    hide EncodeTable, LatestLinks, TableLinks, AllEvents, RowEvents, RowLinks, Events, Encodable, RowEncodable;
    var rows := EncodeTable(blocks);
    if n == 0 {
      NoLinks(rows, blocks);
    } else {
      TableLinksEncoded(blocks, n - 1);
      assert |blocks[n - 1]| <= SlotCount by { RowBounded(blocks, n - 1); }
      RowLinksEncoded(blocks, n - 1, SlotCount, TableLinks(rows[..n - 1]));
      assert rows[n - 1].slots[..SlotCount] == rows[n - 1].slots by { SlotsOf(blocks, n - 1); }
      assert blocks[n - 1][..|blocks[n - 1]|] == blocks[n - 1];
      TableStep(rows, n);
      EventsStep(blocks, n);
    }
  }

  lemma SlotsOf(blocks: seq<seq<BusEvent>>, k: nat)
    requires k < |blocks|
    ensures |EncodeTable(blocks)[k].slots| == SlotCount
  {
  }

  lemma RowBounded(blocks: seq<seq<BusEvent>>, k: nat)
    requires Encodable(blocks) && k < |blocks|
    ensures |blocks[k]| <= SlotCount
  {
    assert RowEncodable(blocks[k]);
  }

  lemma NoLinks(rows: seq<MemoryRow>, blocks: seq<seq<BusEvent>>)
    ensures TableLinks(rows[..0]) == [] && LatestLinks([]) && Events([]) == [] && AllEvents(blocks[..0]) == []
  {
  }

  lemma {:induction false} SameLinks(a: seq<Linked>, b: seq<Linked>)
    requires LatestLinks(a) && LatestLinks(b) && Events(a) == Events(b)
    ensures a == b
  {
    forall k | 0 <= k < |a| ensures a[k] == b[k] {
      assert a[k].event == Events(a)[k] && b[k].event == Events(b)[k];
    }
  }

  /** Predecessor and delta bits of the encoder's links satisfy every slot identity, and its table carries those
      links. */
  lemma EncodedTable(blocks: seq<seq<BusEvent>>, links: seq<Linked>)
    requires Encodable(blocks) && LatestLinks(links) && Events(links) == AllEvents(blocks)
    ensures TableLinks(EncodeTable(blocks)) == links && Accepted(EncodeTable(blocks))
  {
    hide EncodeRow, LatestLinks, Accepted, TableLinks, AllEvents, Events;
    TableAccepted(blocks);
    TableLinksEncoded(blocks, |blocks|);
    assert EncodeTable(blocks)[..|blocks|] == EncodeTable(blocks) && blocks[..|blocks|] == blocks;
    SameLinks(TableLinks(EncodeTable(blocks)), links);
  }

  /** Without bit columns it constrains nothing: every predecessor value has a delta column that satisfies it. */
  lemma IdentityNeedsBits(current: int, predecessor: int) returns (delta: int)
    ensures Felt(delta) && Zero(current - predecessor - delta - 1)
  {
    delta := (current - predecessor - 1) % P;
    var q := (current - predecessor - 1) / P;
    assert current - predecessor - delta - 1 == q * P;
    MultipleMod(P, q);
  }

  // ----- ordered log indices -----

  /** Input-log columns of one bus slot. */
  datatype LogSlot = LogSlot(selected: int, index: int)

  function Selected(slots: seq<LogSlot>): int {
    if slots == [] then 0 else Selected(slots[..|slots| - 1]) + slots[|slots| - 1].selected
  }

  /** A selected slot carries the initial index plus the selectors before it. */
  predicate LogIdentity(initial: int, slots: seq<LogSlot>, k: nat)
    requires k < |slots|
  {
    Zero(slots[k].selected * (slots[k].index - (initial + Selected(slots[..k]))))
  }

  lemma {:induction false} SelectedRange(slots: seq<LogSlot>)
    requires forall k :: 0 <= k < |slots| ==> Bit(slots[k].selected)
    ensures 0 <= Selected(slots) <= |slots|
  {
    if slots != [] { SelectedRange(slots[..|slots| - 1]); }
  }

  lemma {:induction false} SelectedBetween(slots: seq<LogSlot>, j: nat, k: nat)
    requires (forall i :: 0 <= i < |slots| ==> Bit(slots[i].selected)) && j < k <= |slots|
    ensures Selected(slots[..k]) >= Selected(slots[..j]) + slots[j].selected
    decreases k
  {
    assert slots[..k][..k - 1] == slots[..k - 1];
    if j < k - 1 { SelectedBetween(slots, j, k - 1); }
  }

  /** Selected slots of a row carry consecutive log indices from the initial one. */
  lemma LogIndicesForced(initial: int, slots: seq<LogSlot>, k: nat)
    requires 0 <= initial < 0x1_0000_0000_0000_0000 && |slots| <= SlotCount && k < |slots|
    requires forall j :: 0 <= j < |slots| ==> Bit(slots[j].selected) && Felt(slots[j].index)
    requires forall j :: 0 <= j < |slots| ==> LogIdentity(initial, slots, j)
    ensures slots[k].selected == 1 ==> slots[k].index == initial + Selected(slots[..k])
    ensures forall j :: 0 <= j < k && slots[j].selected == 1 && slots[k].selected == 1 ==>
            slots[j].index < slots[k].index
  {
    if slots[k].selected == 1 {
      LogIndexAt(initial, slots, k);
      forall j | 0 <= j < k && slots[j].selected == 1 ensures slots[j].index < slots[k].index {
        LogIndexAt(initial, slots, j);
        SelectedBetween(slots, j, k);
      }
    }
  }

  lemma LogIndexAt(initial: int, slots: seq<LogSlot>, k: nat)
    requires 0 <= initial < 0x1_0000_0000_0000_0000 && |slots| <= SlotCount && k < |slots| && slots[k].selected == 1
    requires forall j :: 0 <= j < |slots| ==> Bit(slots[j].selected) && Felt(slots[j].index)
    requires LogIdentity(initial, slots, k)
    ensures slots[k].index == initial + Selected(slots[..k])
  {
    SelectedRange(slots[..k]);
    SameColumn(slots[k].index, initial + Selected(slots[..k]));
  }
}
