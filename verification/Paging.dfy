/** backend_provider.py _event_page and web/src/composables/useAgentSession.ts hydrateHistoryEvents: one
    page of history within its byte bound, and a client that follows the cursor. */
module Paging {
  import opened Wrappers
  import opened Preview

  const EVENT_PAYLOAD_LIMIT: nat := 65536
  const PAGE_BYTES_LIMIT: nat := 8388608
  const PAYLOAD_FLOOR: nat := 128
  const EVENT_LIMIT: nat := 200

  /** A logged event with its canonical payload text. */
  datatype Logged = Logged(sequence: nat, payload: string)

  /** The event on a page: its payload, or the preview of it. */
  datatype Shown = Whole(event: Logged) | Shortened(event: Logged, preview: Cut)

  datatype Page = Page(events: seq<Shown>, next: Option<nat>, hasMore: bool)

  datatype Unavailable = NoEvents | TooLarge | NoPreview

  /** The sizes the encoders report: of preview records, of payload texts, of whole payloads under the
      widest encoding, of an empty page for these events and of a page. All but the first are arbitrary. */
  datatype Sizes = Sizes(preview: (Logged, nat) -> Encoder, text: Logged -> nat, whole: Logged -> nat,
                         empty: seq<Logged> -> nat, page: Page -> nat) {
    ghost predicate Valid() {
      forall e, limit :: preview(e, limit).Valid()
    }
  }

  predicate Ordered(log: seq<Logged>) {
    forall i, j :: 0 <= i < j < |log| ==> log[i].sequence < log[j].sequence
  }

  function After(log: seq<Logged>, since: nat): seq<Logged> {
    if log == [] then []
    else if log[0].sequence > since then log
    else After(log[1..], since)
  }

  function Min(a: nat, b: nat): nat {
    if a < b then a else b
  }

  function Project(z: Sizes, e: Logged, limit: nat): Result<Shown, Unavailable> {
    match Bounded(z.preview(e, limit), e.payload, z.text(e) <= limit && z.whole(e) <= limit, limit)
    case Ok(None) => Ok(Whole(e))
    case Ok(Some(p)) => Ok(Shortened(e, p))
    case Err(_) => Err(NoPreview)
  }

  function ProjectAll(z: Sizes, es: seq<Logged>, limit: nat): (r: Result<seq<Shown>, Unavailable>)
    ensures r.Ok? ==> |r.value| == |es| && forall i :: 0 <= i < |es| ==> r.value[i].event == es[i]
  {
    if es == [] then Ok([])
    else
      var rest :- ProjectAll(z, es[..|es| - 1], limit);
      var last :- Project(z, es[|es| - 1], limit);
      Ok(rest + [last])
  }

  /** The page with this bound on every payload. */
  function Build(z: Sizes, selected: seq<Logged>, hasMore: bool, limit: nat): Result<Page, Unavailable> {
    var events :- ProjectAll(z, selected, limit);
    Ok(Page(events, if hasMore && events != [] then Some(events[|events| - 1].event.sequence) else None, hasMore))
  }

  method BuildPage(z: Sizes, selected: seq<Logged>, hasMore: bool, limit: nat) returns (r: Result<Page, Unavailable>)
    requires z.Valid()
    ensures r == Build(z, selected, hasMore, limit) && (r.Err? ==> r.error == NoPreview)
  {
    hide Bounded;
    var events: seq<Shown> := [];
    for i := 0 to |selected|
      invariant ProjectAll(z, selected[..i], limit) == Ok(events)
      invariant forall n :: 0 <= n < i ==> Project(z, selected[n], limit).Ok?
    {
      assert selected[..i + 1][..i] == selected[..i];
      var e := selected[i];
      var bounded := BoundedPayload(z.preview(e, limit), e.payload, z.text(e) <= limit && z.whole(e) <= limit, limit);
      if bounded.Err? {
        FailedProjection(z, selected, limit, i);
        return Err(NoPreview);
      }
      events := events + [if bounded.value.None? then Whole(e) else Shortened(e, bounded.value.value)];
    }
    assert selected[..|selected|] == selected;
    var next := if hasMore && events != [] then Some(events[|events| - 1].event.sequence) else None;
    return Ok(Page(events, next, hasMore));
  }

  lemma {:induction false} FailedProjection(z: Sizes, es: seq<Logged>, limit: nat, i: nat)
    requires i < |es| && Project(z, es[i], limit).Err?
    ensures ProjectAll(z, es, limit) == Err(NoPreview)
  {
    if i < |es| - 1 {
      assert es[..|es| - 1][i] == es[i];
      FailedProjection(z, es[..|es| - 1], limit, i);
    } else if ProjectAll(z, es[..|es| - 1], limit).Err? {
      OnlyNoPreview(z, es[..|es| - 1], limit);
    }
  }

  lemma {:induction false} OnlyNoPreview(z: Sizes, es: seq<Logged>, limit: nat)
    requires ProjectAll(z, es, limit).Err?
    ensures ProjectAll(z, es, limit) == Err(NoPreview)
  {
    if es != [] && ProjectAll(z, es[..|es| - 1], limit).Err? {
      OnlyNoPreview(z, es[..|es| - 1], limit);
    }
  }

  /** The bound to start with: the usual one if the page will fit, otherwise an even share. */
  function StartLimit(z: Sizes, selected: seq<Logged>): (limit: nat)
    ensures PAYLOAD_FLOOR <= limit <= EVENT_PAYLOAD_LIMIT
  {
    var empty := z.empty(selected);
    if empty + BoundedSum(z, selected) <= PAGE_BYTES_LIMIT || selected == [] then EVENT_PAYLOAD_LIMIT
    else
      var share := (PAGE_BYTES_LIMIT - empty) / |selected| - 1;
      Min(if share > PAYLOAD_FLOOR then share else PAYLOAD_FLOOR, EVENT_PAYLOAD_LIMIT)
  }

  function BoundedSum(z: Sizes, es: seq<Logged>): nat {
    if es == [] then 0 else Min(z.text(es[0]), EVENT_PAYLOAD_LIMIT) + BoundedSum(z, es[1..])
  }

  /** The next bound after a page of this size turned out too large. */
  function Shrunk(limit: nat, size: nat): (next: nat)
    requires limit > PAYLOAD_FLOOR && size > PAGE_BYTES_LIMIT
    ensures PAYLOAD_FLOOR <= next < limit
  {
    var scaled := limit * PAGE_BYTES_LIMIT / size - 1;
    ScaledBelow(limit, PAGE_BYTES_LIMIT, size);
    if scaled > PAYLOAD_FLOOR then scaled else PAYLOAD_FLOOR
  }

  lemma {:induction false} ScaledBelow(a: nat, b: nat, c: nat)
    requires b < c
    ensures a * b / c <= a
  {
    assert a * b <= a * c;
    assert a * c / c == a;
  }

  /** Why these events cannot be shown: even the smallest previews make too large a page, or under some
      bound that was tried one of them has no preview at all. */
  ghost predicate Refused(z: Sizes, selected: seq<Logged>, hasMore: bool, x: Unavailable) {
    match x
    case NoEvents => false
    case TooLarge =>
      var smallest := Build(z, selected, hasMore, PAYLOAD_FLOOR);
      smallest.Ok? && z.page(smallest.value) > PAGE_BYTES_LIMIT
    case NoPreview =>
      exists bound :: PAYLOAD_FLOOR <= bound <= EVENT_PAYLOAD_LIMIT
        && Build(z, selected, hasMore, bound) == Err(NoPreview)
  }

  /** The first of the shrinking bounds whose page is small enough. */
  function Served(z: Sizes, selected: seq<Logged>, hasMore: bool, limit: nat): Result<Page, Unavailable>
    decreases limit
  {
    var page :- Build(z, selected, hasMore, limit);
    if z.page(page) <= PAGE_BYTES_LIMIT then Ok(page)
    else if limit <= PAYLOAD_FLOOR then Err(TooLarge)
    else Served(z, selected, hasMore, Shrunk(limit, z.page(page)))
  }

  /** Shrinking terminates, and a page is only returned within its byte bound; otherwise even the
      smallest previews were too large. */
  method EventPage(z: Sizes, log: seq<Logged>, since: nat, limit: nat) returns (r: Result<Page, Unavailable>)
    requires z.Valid() && Ordered(log) && limit > 0
    ensures var eligible := After(log, since);
            var selected := eligible[..Min(limit, |eligible|)];
            && (r.Ok? ==>
                  && z.page(r.value) <= PAGE_BYTES_LIMIT
                  && PageOf(r.value, selected, |eligible| > |selected|)
                  && exists bound :: PAYLOAD_FLOOR <= bound <= EVENT_PAYLOAD_LIMIT
                       && Build(z, selected, r.value.hasMore, bound) == r)
            && (r.Err? ==> Refused(z, selected, |eligible| > |selected|, r.error))
            && r == Served(z, selected, |eligible| > |selected|, StartLimit(z, selected))
  {
    var eligible := After(log, since);
    var selected := eligible[..Min(limit, |eligible|)];
    var hasMore := |eligible| > |selected|;
    var payloadLimit := StartLimit(z, selected);
    var page :- BuildPage(z, selected, hasMore, payloadLimit);
    while z.page(page) > PAGE_BYTES_LIMIT && payloadLimit > PAYLOAD_FLOOR
      invariant PAYLOAD_FLOOR <= payloadLimit <= EVENT_PAYLOAD_LIMIT
      invariant Build(z, selected, hasMore, payloadLimit) == Ok(page)
      invariant Served(z, selected, hasMore, payloadLimit) == Served(z, selected, hasMore, StartLimit(z, selected))
      decreases payloadLimit
    {
      payloadLimit := Shrunk(payloadLimit, z.page(page));
      page :- BuildPage(z, selected, hasMore, payloadLimit);
    }
    if z.page(page) > PAGE_BYTES_LIMIT {
      return Err(TooLarge);
    }
    return Ok(page);
  }

  /** A page carries exactly the selected events, whatever was shortened, and points behind the last. */
  predicate PageOf(page: Page, selected: seq<Logged>, hasMore: bool) {
    && |page.events| == |selected|
    && (forall i :: 0 <= i < |selected| ==> page.events[i].event == selected[i])
    && page.hasMore == hasMore
    && page.next == if hasMore && selected != [] then Some(selected[|selected| - 1].sequence) else None
  }

  lemma {:induction false} AfterSuffix(log: seq<Logged>, since: nat) returns (from: nat)
    requires Ordered(log)
    ensures from <= |log| && After(log, since) == log[from..]
    ensures forall i :: 0 <= i < from ==> log[i].sequence <= since
    ensures forall i :: from <= i < |log| ==> log[i].sequence > since
  {
    if log == [] || log[0].sequence > since {
      from := 0;
    } else {
      var rest := AfterSuffix(log[1..], since);
      from := rest + 1;
      assert log[1..][rest..] == log[from..];
      forall i | from <= i < |log| ensures log[i].sequence > since {
        assert log[1..][i - 1] == log[i];
      }
      forall i | 0 <= i < from ensures log[i].sequence <= since {
        if i > 0 {
          assert log[1..][i - 1] == log[i];
        }
      }
    }
  }

  /** Asking for what comes behind the first n events. */
  lemma {:induction false} AfterCursor(log: seq<Logged>, since: nat, n: nat)
    requires Ordered(log) && n <= |log|
    requires if n == 0 then since == 0 && (log != [] ==> log[0].sequence > 0) else since == log[n - 1].sequence
    ensures After(log, since) == log[n..]
  {
    if n > 1 {
      assert log[1..][n - 2] == log[n - 1];
      AfterCursor(log[1..], since, n - 1);
    }
  }

  /** A page that promises more points behind its last event, which lies past the cursor it was asked
      for: the client never asks twice for the same page. */
  lemma {:induction false} CursorAdvances(log: seq<Logged>, since: nat, limit: nat, page: Page)
    requires Ordered(log) && limit > 0
    requires var eligible := After(log, since);
             var selected := eligible[..Min(limit, |eligible|)];
             PageOf(page, selected, |eligible| > |selected|)
    ensures page.hasMore ==> page.next.Some? && page.next.value > since && page.events != []
  {
    var from := AfterSuffix(log, since);
    var eligible := After(log, since);
    assert forall i :: 0 <= i < |eligible| ==> eligible[i] == log[from + i];
  }

  method EventsOf(page: Page, ghost selected: seq<Logged>, ghost hasMore: bool) returns (events: seq<Logged>)
    requires PageOf(page, selected, hasMore)
    ensures events == selected
  {
    events := [];
    for i := 0 to |page.events|
      invariant events == selected[..i]
    {
      events := events + [page.events[i].event];
    }
  }

  /** backend_provider.py read_session_events: a session without events is unavailable. */
  method ReadSessionEvents(z: Sizes, log: seq<Logged>, since: nat, limit: nat) returns (r: Result<Page, Unavailable>)
    requires z.Valid() && Ordered(log) && limit > 0
    ensures r == Err(NoEvents) <==> log == []
    ensures var eligible := After(log, since);
            var selected := eligible[..Min(limit, |eligible|)];
            && (r.Ok? ==> z.page(r.value) <= PAGE_BYTES_LIMIT && PageOf(r.value, selected, |eligible| > |selected|))
            && (log != [] ==> r == Served(z, selected, |eligible| > |selected|, StartLimit(z, selected)))
  {
    if log == [] {
      return Err(NoEvents);
    }
    r := EventPage(z, log, since, limit);
  }

  /** The page behind the first n events, or why it is refused. */
  function PageBehind(z: Sizes, log: seq<Logged>, n: nat, limit: nat): Result<Page, Unavailable>
    requires n <= |log|
  {
    var selected := log[n..][..Min(limit, |log| - n)];
    if log == [] then Err(NoEvents)
    else Served(z, selected, |log| - n > limit, StartLimit(z, selected))
  }

  /** One request of the client, behind the first n events. */
  method NextPage(z: Sizes, log: seq<Logged>, n: nat, since: nat, limit: nat)
    returns (r: Result<Page, Unavailable>, events: seq<Logged>)
    requires z.Valid() && Ordered(log) && limit > 0 && n <= |log|
    requires if n == 0 then since == 0 && (log != [] ==> log[0].sequence > 0) else since == log[n - 1].sequence
    ensures r.Ok? ==>
              && n + |events| <= |log| && events == log[n..n + |events|]
              && log != [] && (r.value.hasMore <==> |events| < |log| - n)
              && (r.value.hasMore ==>
                    events != [] && r.value.next == Some(log[n + |events| - 1].sequence) && r.value.next.value > since)
    ensures r == PageBehind(z, log, n, limit)
  {
    hide Build, Served, StartLimit, BoundedSum, Ordered, After;
    AfterCursor(log, since, n);
    r := ReadSessionEvents(z, log, since, limit);
    events := [];
    if r.Ok? {
      ghost var size := Min(limit, |log| - n);
      CursorAdvances(log, since, limit, r.value);
      events := EventsOf(r.value, log[n..][..size], |log| - n > size);
      assert log[n..][..size] == log[n..n + size];
    }
  }

  /** The client follows next_cursor from 0. It terminates; it has consumed every logged event once, in
      order, exactly when it was never refused, and a refusal is one of the page behind what it consumed.
      Its guard against a cursor that does not move never fires. */
  method HydrateHistory(z: Sizes, log: seq<Logged>, limit: nat)
    returns (consumed: seq<Logged>, error: Option<Unavailable>)
    requires z.Valid() && Ordered(log) && (log != [] ==> log[0].sequence > 0)
    requires 0 < limit <= EVENT_LIMIT
    ensures consumed <= log
    ensures error.None? <==> log != [] && consumed == log
    ensures error.Some? ==> PageBehind(z, log, |consumed|, limit) == Err(error.value)
  {
    hide Ordered, PageBehind;
    var n, since := 0, 0;
    consumed := [];
    while true
      invariant n <= |log| && consumed == log[..n] && (log != [] ==> n < |log|)
      invariant if n == 0 then since == 0 else since == log[n - 1].sequence
      decreases |log| - n
    {
      var page, events := NextPage(z, log, n, since, limit);
      if page.Err? {
        return consumed, Some(page.error);
      }
      consumed, n := consumed + events, n + |events|;
      if !page.value.hasMore {
        return consumed, None;
      }
      if page.value.next.None? || page.value.next.value == since {
        assert false;
      }
      since := page.value.next.value;
    }
  }
}
