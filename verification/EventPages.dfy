/** Event pages: bounded in count and bytes, and together, followed to the end, exactly the log. */
module EventPages {
  import opened Wrappers

  const MAX_EVENTS_RESPONSE_BYTES: nat := 768 * 1024

  /** An event with its serialised size, and that of its truncation marker; none where it is too deeply nested. */
  datatype Event = Event(seqNo: int, body: string, size: Option<nat>, marker: Option<nat>)

  /** A line as the page reader sees it. */
  datatype Item = Blank | Corrupt | Record(event: Event)

  /** What a page carries for an event. */
  datatype Entry = Verbatim(event: Event) | Marker(seqNo: int, size: nat)

  datatype Page = Page(selected: seq<Entry>, last: int, used: nat, exhausted: bool)

  function SeqOf(x: Entry): int {
    if x.Verbatim? then x.event.seqNo else x.seqNo
  }

  function SizeOf(x: Entry): nat {
    if x.Marker? then x.size else if x.event.size.Some? then x.event.size.value else 0
  }

  /** The serialised array: brackets, entries, and commas between them. */
  function Bytes(xs: seq<Entry>): nat {
    if xs == [] then 2 else Bytes(xs[..|xs| - 1]) + SizeOf(xs[|xs| - 1]) + if |xs| > 1 then 1 else 0
  }

  // ---- the reader ------------------------------------------------------------------

  /** The rest of the scan; `refuses` says whether the line reader refuses after these lines. */
  function Scan(items: seq<Item>, refuses: bool, from: int, limit: nat, selected: seq<Entry>, last: int,
      used: nat): Option<Page>
    decreases |items|
  {
    if items == [] then if refuses then None else Some(Page(selected, last, used, |selected| < limit))
    else
      match items[0]
      case Blank => Scan(items[1..], refuses, from, limit, selected, last, used)
      case Corrupt => None
      case Record(e) =>
        if e.seqNo <= from then Scan(items[1..], refuses, from, limit, selected, last, used)
        else if selected != [] && e.seqNo <= last then None
        else if e.size.None? then None
        else
          var cost := used + (if selected != [] then 1 else 0) + e.size.value;
          if cost > MAX_EVENTS_RESPONSE_BYTES then
            if selected != [] then Some(Page(selected, last, used, false))
            else if e.marker.None? || used + e.marker.value > MAX_EVENTS_RESPONSE_BYTES then None
            else Some(Page([Marker(e.seqNo, e.marker.value)], e.seqNo, used + e.marker.value, false))
          else if |selected| + 1 >= limit then Some(Page(selected + [Verbatim(e)], e.seqNo, cost, false))
          else Scan(items[1..], refuses, from, limit, selected + [Verbatim(e)], e.seqNo, cost)
  }

  function ReadPage(items: seq<Item>, refuses: bool, from: int, limit: nat): Option<Page> {
    Scan(items, refuses, from, limit, [], from, 2)
  }

  /** The page reader as it runs. */
  method ReadEventsPage(items: seq<Item>, refuses: bool, from: int, limit: nat) returns (r: Option<Page>)
    ensures r == ReadPage(items, refuses, from, limit)
  {
    var selected: seq<Entry>, last: int, used: nat := [], from, 2;
    var stoppedEarly, k := false, 0;
    assert items[0..] == items;
    while k < |items|
      invariant 0 <= k <= |items| && !stoppedEarly
      invariant Scan(items[k..], refuses, from, limit, selected, last, used) == ReadPage(items, refuses, from, limit)
    {
      assert items[k..][0] == items[k] && items[k..][1..] == items[k + 1..];
      if items[k].Corrupt? {
        return None;
      }
      if items[k].Record? && items[k].event.seqNo > from {
        var e := items[k].event;
        if (selected != [] && e.seqNo <= last) || e.size.None? {
          return None;
        }
        var separator := if selected != [] then 1 else 0;
        if used + separator + e.size.value > MAX_EVENTS_RESPONSE_BYTES {
          if selected == [] {
            if e.marker.None? || used + e.marker.value > MAX_EVENTS_RESPONSE_BYTES {
              return None;
            }
            selected, last, used := [Marker(e.seqNo, e.marker.value)], e.seqNo, used + e.marker.value;
          }
          return Some(Page(selected, last, used, false));
        }
        selected, last, used := selected + [Verbatim(e)], e.seqNo, used + separator + e.size.value;
        if |selected| >= limit {
          return Some(Page(selected, last, used, false));
        }
      }
      k := k + 1;
    }
    return if refuses then None else Some(Page(selected, last, used, |selected| < limit));
  }

  // ---- the plain log ---------------------------------------------------------------

  function Events(items: seq<Item>): seq<Event> {
    if items == [] then [] else (if items[0].Record? then [items[0].event] else []) + Events(items[1..])
  }

  predicate Increasing(es: seq<Event>) {
    forall i, j :: 0 <= i < j < |es| ==> es[i].seqNo < es[j].seqNo
  }

  /** The events past a cursor. */
  function After(es: seq<Event>, from: int): seq<Event> {
    if es == [] then [] else (if es[0].seqNo > from then [es[0]] else []) + After(es[1..], from)
  }

  /** Too large for any page, even alone. */
  predicate TooLarge(e: Event) {
    e.size.Some? && 2 + e.size.value > MAX_EVENTS_RESPONSE_BYTES
  }

  /** An event is carried verbatim, or, exactly when it is too large for a page of its own, as its marker. */
  predicate Carries(x: Entry, e: Event) {
    && SeqOf(x) == e.seqNo
    && (x.Marker? <==> TooLarge(e))
    && (x.Verbatim? ==> x.event == e)
    && (x.Marker? ==> Some(x.size) == e.marker)
  }

  /** The entries carry, one for one and in order, the first of the events. */
  predicate Covers(xs: seq<Entry>, es: seq<Event>) {
    |xs| <= |es| && forall i :: 0 <= i < |xs| ==> Carries(xs[i], es[i])
  }

  lemma {:induction false} AllAfter(es: seq<Event>, from: int)
    requires Increasing(es) && (es != [] ==> es[0].seqNo > from)
    ensures After(es, from) == es
    decreases |es|
  {
    if es != [] {
      AllAfter(es[1..], from);
      assert es == [es[0]] + es[1..];
    }
  }

  lemma {:induction false} AfterIndex(es: seq<Event>, k: nat)
    requires Increasing(es) && k < |es|
    ensures After(es, es[k].seqNo) == es[k + 1..]
    decreases |es|
  {
    if k == 0 {
      AllAfter(es[1..], es[0].seqNo);
    } else {
      AfterIndex(es[1..], k - 1);
      assert es[1..][k - 1] == es[k] && es[1..][k..] == es[k + 1..];
    }
  }

  lemma {:induction false} AfterAreLater(es: seq<Event>, from: int)
    ensures forall i :: 0 <= i < |After(es, from)| ==> After(es, from)[i].seqNo > from
    decreases |es|
  {
    if es != [] {
      AfterAreLater(es[1..], from);
    }
  }

  lemma AfterSkips(es: seq<Event>, from: int)
    requires es != [] && es[0].seqNo <= from
    ensures After(es, from) == After(es[1..], from)
  {
  }

  /** Moving the cursor to an event drops it and those before it, and nothing else. */
  lemma {:induction false} CursorDrops(es: seq<Event>, from: int, n: nat)
    requires Increasing(es) && 1 <= n <= |After(es, from)|
    ensures After(es, After(es, from)[n - 1].seqNo) == After(es, from)[n..]
    decreases |es|
  {
    assert es != [];
    hide After;
    if es[0].seqNo > from {
      AllAfter(es, from);
      AfterIndex(es, n - 1);
    } else {
      AfterAreLater(es[1..], from);
      AfterSkips(es, from);
      AfterSkips(es, After(es[1..], from)[n - 1].seqNo);
      CursorDrops(es[1..], from, n);
    }
  }

  // ---- one page --------------------------------------------------------------------

  /** The fresh entries of a page, past those it was begun with. */
  ghost predicate PageOk(p: Page, selected: seq<Entry>, es: seq<Event>, last: int, limit: nat) {
    && selected <= p.selected
    && Covers(p.selected[|selected|..], es)
    && p.last == (if p.selected == [] then last else SeqOf(p.selected[|p.selected| - 1]))
    && p.used == Bytes(p.selected) <= MAX_EVENTS_RESPONSE_BYTES
    && (p.exhausted ==> |p.selected| - |selected| == |es| && |p.selected| < limit)
    && (!p.exhausted ==> p.selected != [])
    && |p.selected| <= limit
  }

  ghost predicate Begun(selected: seq<Entry>, last: int, used: nat, limit: nat) {
    && used == Bytes(selected) <= MAX_EVENTS_RESPONSE_BYTES
    && |selected| < limit
    && (selected != [] ==> last == SeqOf(selected[|selected| - 1]))
  }

  lemma BytesGrow(xs: seq<Entry>, x: Entry)
    ensures Bytes(xs + [x]) == Bytes(xs) + SizeOf(x) + if xs != [] then 1 else 0
  {
    assert (xs + [x])[..|xs|] == xs;
  }

  lemma BytesStart(xs: seq<Entry>)
    ensures Bytes(xs) >= 2 && (xs == [] ==> Bytes(xs) == 2)
  {
  }

  lemma PageGrows(p: Page, selected: seq<Entry>, x: Entry, e: Event, es: seq<Event>, last: int, limit: nat)
    requires PageOk(p, selected + [x], es, SeqOf(x), limit) && Carries(x, e)
    ensures PageOk(p, selected, [e] + es, last, limit)
  {
    assert p.selected[|selected|] == (selected + [x])[|selected|];
    assert p.selected[|selected|..] == [x] + p.selected[|selected| + 1..];
  }

  lemma Stops(selected: seq<Entry>, es: seq<Event>, last: int, used: nat, limit: nat)
    requires Begun(selected, last, used, limit) && selected != []
    ensures PageOk(Page(selected, last, used, false), selected, es, last, limit)
  {
  }

  lemma LastOne(selected: seq<Entry>, x: Entry, e: Event, es: seq<Event>, last: int, limit: nat)
    requires Carries(x, e) && Bytes(selected + [x]) <= MAX_EVENTS_RESPONSE_BYTES && |selected| < limit
    ensures PageOk(Page(selected + [x], SeqOf(x), Bytes(selected + [x]), false), selected, [e] + es, last, limit)
  {
    assert (selected + [x])[|selected|..] == [x];
  }

  /** What a scan returns, if it does not refuse, relative to the plain log. */
  lemma {:induction false} ScanIsRight(items: seq<Item>, refuses: bool, from: int, limit: nat, selected: seq<Entry>,
      last: int, used: nat)
    requires Begun(selected, last, used, limit)
    requires Scan(items, refuses, from, limit, selected, last, used).Some?
    ensures PageOk(Scan(items, refuses, from, limit, selected, last, used).value, selected,
        After(Events(items), from), last, limit)
    decreases |items|
  {
    hide PageOk, Covers, Bytes;
    if items == [] {
      Ends(selected, last, used, limit);
    } else if items[0].Record? && items[0].event.seqNo > from {
      var e := items[0].event;
      var es := After(Events(items[1..]), from);
      assert After(Events(items), from) == [e] + es;
      var x := Verbatim(e);
      BytesGrow(selected, x);
      BytesStart(selected);
      var cost := used + (if selected != [] then 1 else 0) + e.size.value;
      if cost > MAX_EVENTS_RESPONSE_BYTES {
        if selected != [] {
          Stops(selected, [e] + es, last, used, limit);
        } else {
          var marker := Marker(e.seqNo, e.marker.value);
          BytesGrow(selected, marker);
          assert selected + [marker] == [marker];
          LastOne(selected, marker, e, es, last, limit);
        }
      } else if |selected| + 1 >= limit {
        LastOne(selected, x, e, es, last, limit);
      } else {
        ScanIsRight(items[1..], refuses, from, limit, selected + [x], e.seqNo, cost);
        PageGrows(Scan(items, refuses, from, limit, selected, last, used).value, selected, x, e, es, last, limit);
      }
    } else {
      assert After(Events(items), from) == After(Events(items[1..]), from) by { SkipsHead(items, from); }
      ScanIsRight(items[1..], refuses, from, limit, selected, last, used);
    }
  }

  lemma SkipsHead(items: seq<Item>, from: int)
    requires items != [] && (items[0].Record? ==> items[0].event.seqNo <= from)
    ensures After(Events(items), from) == After(Events(items[1..]), from)
  {
    if items[0].Record? {
      assert ([items[0].event] + Events(items[1..]))[1..] == Events(items[1..]);
    } else {
      assert Events(items) == Events(items[1..]);
    }
  }

  lemma Ends(selected: seq<Entry>, last: int, used: nat, limit: nat)
    requires Begun(selected, last, used, limit)
    ensures PageOk(Page(selected, last, used, |selected| < limit), selected, [], last, limit)
  {
  }

  /** Every page that is returned: what it carries, its exact byte count, and that it advances unless exhausted. */
  lemma PageIsRight(items: seq<Item>, refuses: bool, from: int, limit: nat)
    requires limit > 0 && ReadPage(items, refuses, from, limit).Some?
    ensures var p, es := ReadPage(items, refuses, from, limit).value, After(Events(items), from);
      && Covers(p.selected, es) && |p.selected| <= limit
      && p.used == Bytes(p.selected) <= MAX_EVENTS_RESPONSE_BYTES
      && (if p.exhausted then |p.selected| == |es|
          else p.selected != [] && p.last == SeqOf(p.selected[|p.selected| - 1]) > from)
  {
    ScanIsRight(items, refuses, from, limit, [], from, 2);
    var p := ReadPage(items, refuses, from, limit).value;
    assert p.selected[0..] == p.selected;
    AfterAreLater(Events(items), from);
  }

  // ---- following the cursor --------------------------------------------------------

  /** Page after page from the cursor each one returned, until one says it is the last; none if any refuses. */
  function Follow(items: seq<Item>, refuses: bool, from: int, limit: nat): Option<seq<Entry>>
    requires limit > 0 && Increasing(Events(items))
    decreases |After(Events(items), from)|
  {
    var page := ReadPage(items, refuses, from, limit);
    if page.None? then None
    else if page.value.exhausted then Some(page.value.selected)
    else
      CursorAdvances(items, refuses, from, limit);
      var rest := Follow(items, refuses, page.value.last, limit);
      if rest.None? then None else Some(page.value.selected + rest.value)
  }

  lemma CursorAdvances(items: seq<Item>, refuses: bool, from: int, limit: nat)
    requires limit > 0 && Increasing(Events(items))
    requires ReadPage(items, refuses, from, limit).Some? && !ReadPage(items, refuses, from, limit).value.exhausted
    ensures var p := ReadPage(items, refuses, from, limit).value;
      && 0 < |p.selected| <= |After(Events(items), from)|
      && After(Events(items), p.last) == After(Events(items), from)[|p.selected|..]
  {
    hide Increasing;
    PageIsRight(items, refuses, from, limit);
    var p := ReadPage(items, refuses, from, limit).value;
    var n := |p.selected|;
    assert Carries(p.selected[n - 1], After(Events(items), from)[n - 1]);
    CursorDrops(Events(items), from, n);
  }

  /** Followed to the end, the pages carry every event past the cursor, once each and in order. */
  lemma {:induction false} FollowIsTheLog(items: seq<Item>, refuses: bool, from: int, limit: nat)
    requires limit > 0 && Increasing(Events(items)) && Follow(items, refuses, from, limit).Some?
    ensures var xs, es := Follow(items, refuses, from, limit).value, After(Events(items), from);
      |xs| == |es| && Covers(xs, es)
    decreases |After(Events(items), from)|
  {
    hide ReadPage, Increasing;
    PageIsRight(items, refuses, from, limit);
    var p := ReadPage(items, refuses, from, limit).value;
    if !p.exhausted {
      CursorAdvances(items, refuses, from, limit);
      FollowIsTheLog(items, refuses, p.last, limit);
    }
  }

  // ---- when nothing refuses --------------------------------------------------------

  predicate Showable(e: Event) {
    e.size.Some? && e.marker.Some? && 2 + e.marker.value <= MAX_EVENTS_RESPONSE_BYTES
  }

  /** No corrupt line, no event too deep, and every marker within the budget. */
  predicate Sound(items: seq<Item>) {
    forall i :: 0 <= i < |items| ==>
      && !items[i].Corrupt?
      && (items[i].Record? ==> Showable(items[i].event))
  }

  /** Everything in the list comes after the number. */
  predicate Past(es: seq<Event>, n: int) {
    forall i :: 0 <= i < |es| ==> es[i].seqNo > n
  }

  lemma SoundTail(items: seq<Item>)
    requires items != [] && Sound(items)
    ensures Sound(items[1..]) && !items[0].Corrupt? && (items[0].Record? ==> Showable(items[0].event))
  {
  }

  /** The events of a list are those of its tail, after the head's own if it has one. */
  lemma EventsTail(items: seq<Item>)
    requires items != []
    ensures Events(items) == if items[0].Record? then [items[0].event] + Events(items[1..]) else Events(items[1..])
  {
  }

  lemma IncreasingTail(e: Event, es: seq<Event>)
    requires Increasing([e] + es)
    ensures Increasing(es) && Past(es, e.seqNo)
  {
    var all := [e] + es;
    forall i | 0 <= i < |es|
      ensures es[i] == all[i + 1] && es[i].seqNo > e.seqNo
    {
      assert all[0].seqNo < all[i + 1].seqNo;
    }
  }

  lemma {:induction false} SoundScans(items: seq<Item>, from: int, limit: nat, selected: seq<Entry>, last: int,
      used: nat)
    requires Sound(items) && Increasing(Events(items)) && (selected == [] ==> used == 2)
    requires selected != [] ==> Past(Events(items), last)
    ensures Scan(items, false, from, limit, selected, last, used).Some?
    decreases |items|
  {
    hide Sound, Increasing, Events;
    if items != [] {
      SoundTail(items);
      EventsTail(items);
      if items[0].Record? {
        var e, rest := items[0].event, items[1..];
        IncreasingTail(e, Events(rest));
        assert selected != [] ==> e == Events(items)[0];
        assert forall i :: 0 <= i < |Events(rest)| ==> Events(rest)[i] == Events(items)[i + 1];
        if e.seqNo > from {
          SoundScans(rest, from, limit, selected + [Verbatim(e)], e.seqNo,
              used + (if selected != [] then 1 else 0) + e.size.value);
        } else {
          SoundScans(rest, from, limit, selected, last, used);
        }
      } else {
        SoundScans(items[1..], from, limit, selected, last, used);
      }
    }
  }

  /** A sound log with increasing numbers is always read to its end. */
  lemma {:induction false} SoundLogIsRead(items: seq<Item>, from: int, limit: nat)
    requires limit > 0 && Sound(items) && Increasing(Events(items))
    ensures Follow(items, false, from, limit).Some?
    decreases |After(Events(items), from)|
  {
    hide Increasing, Sound;
    SoundScans(items, from, limit, [], from, 2);
    var p := ReadPage(items, false, from, limit).value;
    if !p.exhausted {
      CursorAdvances(items, false, from, limit);
      SoundLogIsRead(items, p.last, limit);
    }
  }
}
