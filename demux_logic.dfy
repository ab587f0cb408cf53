/** The name filter of index.js stated on values. The main stream is an
    append-only sequence of entries; a main-stream iterator is an index into it. */
module DemuxLogic {
  import opened Common

  /** `{name, data: {value, done}}`, the packet `_write` puts on the main stream. */
  datatype NamedPacket = NamedPacket(name: Name, data: Item)

  /** One main-stream entry: a written packet, or the end of the main stream
      that `closeAll()` produces. The main-stream iterator reports `End` as
      `{value: undefined, done: true}` and a packet `p` as `{value: p, done: false}`. */
  datatype Entry = Packet(packet: NamedPacket) | End

  /** What the filtered `next` resolves to. */
  datatype FilterResult =
    | Pending              // the main stream has nothing more yet: the call waits
    | Data(data: Item)     // `packet.value.data` of a packet with the requested name
    | EndOfStream          // the main stream's own done result, passed on unchanged

  /** The filtered `next` stops at an entry exactly when this holds. */
  predicate Wanted(e: Entry, name: Name)
  {
    e.End? || e.packet.name == name
  }

  /** What the filtered `next` returns when it stops at `e`. */
  function ResultOf(e: Entry): FilterResult
  {
    if e.End? then EndOfStream else Data(e.packet.data)
  }

  /** The entries of `es` a filtered iterator for `name` stops at, in order. */
  function Selected(es: seq<Entry>, name: Name): seq<Entry>
  {
    if es == [] then []
    else (if Wanted(es[0], name) then [es[0]] else []) + Selected(es[1..], name)
  }

  /** The results a filtered iterator for `name` yields over `es`. */
  function Deliveries(es: seq<Entry>, name: Name): (ds: seq<FilterResult>)
    ensures |ds| == |Selected(es, name)|
    ensures forall i :: 0 <= i < |ds| ==> ds[i] == ResultOf(Selected(es, name)[i])
  {
    var sel := Selected(es, name);
    seq(|sel|, i requires 0 <= i < |sel| => ResultOf(sel[i]))
  }

  /** One filtered `next` on an iterator at `from`: the loop of index.js:32-40.
      It returns the result and the iterator position afterwards; every entry it
      passes over is discarded, and it stops just past the entry it reports. */
  function Scan(es: seq<Entry>, from: nat, name: Name): (res: (FilterResult, nat))
    requires from <= |es|
    ensures from <= res.1 <= |es|
    ensures res.0 == Pending ==> res.1 == |es| && Selected(es[from..], name) == []
    ensures res.0 != Pending ==>
              from < res.1 && Selected(es[from..res.1], name) == [es[res.1 - 1]] &&
              res.0 == ResultOf(es[res.1 - 1])
    decreases |es| - from
  {
    if from == |es| then (Pending, from)
    else if Wanted(es[from], name) then
      assert es[from..from + 1] == [es[from]];
      (ResultOf(es[from]), from + 1)
    else
      var res := Scan(es, from + 1, name);
      assert es[from..][1..] == es[from + 1..];
      assert es[from..res.1][0] == es[from] && es[from..res.1][1..] == es[from + 1..res.1];
      res
  }

  /** All the results of calling the filtered `next` until it would wait. */
  function Drain(es: seq<Entry>, from: nat, name: Name): seq<FilterResult>
    requires from <= |es|
    decreases |es| - from
  {
    var res := Scan(es, from, name);
    if res.0 == Pending then [] else [res.0] + Drain(es, res.1, name)
  }

  lemma {:induction false} SelectedConcat(a: seq<Entry>, b: seq<Entry>, name: Name)
    ensures Selected(a + b, name) == Selected(a, name) + Selected(b, name)
  {
    if a != [] {
      assert (a + b)[0] == a[0] && (a + b)[1..] == a[1..] + b;
      SelectedConcat(a[1..], b, name);
    } else {
      assert a + b == b;
    }
  }

  lemma DeliveriesConcat(a: seq<Entry>, b: seq<Entry>, name: Name)
    ensures Deliveries(a + b, name) == Deliveries(a, name) + Deliveries(b, name)
  {
    SelectedConcat(a, b, name);
  }

  /** Appending one entry extends a name's deliveries by its result exactly
      when the entry is wanted for that name. */
  lemma DeliveriesAppend(es: seq<Entry>, e: Entry, name: Name)
    ensures Deliveries(es + [e], name) ==
            Deliveries(es, name) + (if Wanted(e, name) then [ResultOf(e)] else [])
  {
    DeliveriesConcat(es, [e], name);
    assert [e][0] == e && [e][1..] == [];
    assert Selected([e], name) == (if Wanted(e, name) then [e] else []);
    assert Deliveries([e], name) == (if Wanted(e, name) then [ResultOf(e)] else []);
  }

  /** Repeated filtered `next` calls yield the requested name's data and the
      end of the main stream in append order, each exactly once. */
  lemma {:induction false} DrainIsDeliveries(es: seq<Entry>, from: nat, name: Name)
    requires from <= |es|
    ensures Drain(es, from, name) == Deliveries(es[from..], name)
    decreases |es| - from
  {
    var res := Scan(es, from, name);
    if res.0 == Pending {
      assert |Deliveries(es[from..], name)| == 0;
    } else {
      var mid := res.1;
      DrainIsDeliveries(es, mid, name);
      assert es[from..] == es[from..mid] + es[mid..];
      DeliveriesConcat(es[from..mid], es[mid..], name);
      var one := Deliveries(es[from..mid], name);
      assert |one| == 1 && one[0] == res.0;
      assert one == [res.0];
    }
  }

  /** The entries a filtered iterator stops at form a subsequence of the main stream. */
  lemma {:induction false} SelectedIsSubsequence(es: seq<Entry>, name: Name)
    ensures IsSubsequence(Selected(es, name), es)
  {
    if es != [] {
      SelectedIsSubsequence(es[1..], name);
      var sel := Selected(es, name);
      if Wanted(es[0], name) {
        assert sel == [es[0]] + Selected(es[1..], name);
        assert sel[0] == es[0] && sel[1..] == Selected(es[1..], name);
      } else {
        assert sel == Selected(es[1..], name);
      }
    }
  }

  /** No wanted entry is lost or duplicated, and nothing else is kept: each entry
      occurs in the selection as often as in the main stream when it is wanted,
      and not at all otherwise. */
  lemma {:induction false} SelectedCounts(es: seq<Entry>, name: Name, e: Entry)
    ensures multiset(Selected(es, name))[e] == if Wanted(e, name) then multiset(es)[e] else 0
  {
    if es != [] {
      SelectedCounts(es[1..], name, e);
      assert es == [es[0]] + es[1..];
      assert multiset(es) == multiset([es[0]]) + multiset(es[1..]);
    }
  }

  /** A `close(name)` packet ends only the iteration over that name. */
  lemma CloseLeavesOtherNames(es: seq<Entry>, name: Name, other: Name)
    requires other != name
    ensures Deliveries(es + [Packet(NamedPacket(name, Item(Undefined, true)))], other) == Deliveries(es, other)
  {
    DeliveriesAppend(es, Packet(NamedPacket(name, Item(Undefined, true))), other);
  }

  /** `closeAll()` ends the iteration over every name. */
  lemma CloseAllEndsEveryName(es: seq<Entry>, name: Name)
    ensures Deliveries(es + [End], name) == Deliveries(es, name) + [EndOfStream]
  {
    DeliveriesAppend(es, End, name);
  }
}
