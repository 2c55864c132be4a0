/** A ghost log of what a handler does that is observable from outside: spans started and
    ended, span attributes and errors, and outbound requests with the context they carry. */
module Tracing {
  import opened Results

  /** The context a span is started in, or an outbound request is sent with. */
  datatype SpanCtx =
    | Background       // context.Background(): no trace
    | RequestCtx       // the inbound request's context, r.Context()
    | ChildOf(span: string)

  datatype Event =
    | SpanStart(name: string, parent: SpanCtx)
    | SpanEnd(name: string)
    | Request(url: string, ctx: SpanCtx)
    | SetAttribute(span: string, key: string, value: string)
    | RecordError(span: string)

  /** Replays the span events of `trace` against the stack of open spans `open` (innermost
      last); None when an end does not close the innermost open span. */
  function Replay(trace: seq<Event>, open: seq<string>): Option<seq<string>>
    decreases |trace|
  {
    if trace == [] then Some(open)
    else
      match trace[0]
      case SpanStart(n, _) => Replay(trace[1..], open + [n])
      case SpanEnd(n) =>
        if |open| > 0 && open[|open| - 1] == n then Replay(trace[1..], open[..|open| - 1]) else None
      case _ => Replay(trace[1..], open)
  }

  /** Every span is ended after it is started, innermost first, and none is left open. */
  predicate WellBracketed(trace: seq<Event>)
  {
    Replay(trace, []) == Some([])
  }

  function Starts(trace: seq<Event>, name: string): nat
  {
    if trace == [] then 0
    else (if trace[0].SpanStart? && trace[0].name == name then 1 else 0) + Starts(trace[1..], name)
  }

  function Ends(trace: seq<Event>, name: string): nat
  {
    if trace == [] then 0
    else (if trace[0] == SpanEnd(name) then 1 else 0) + Ends(trace[1..], name)
  }

  /** The URLs of the outbound requests, in the order they were sent. */
  function Requests(trace: seq<Event>): seq<string>
  {
    if trace == [] then []
    else (if trace[0].Request? then [trace[0].url] else []) + Requests(trace[1..])
  }

  /** `trace` run as the body of a span `name` started in `parent` and ended on the way out. */
  function Within(name: string, parent: SpanCtx, trace: seq<Event>): seq<Event>
  {
    [SpanStart(name, parent)] + trace + [SpanEnd(name)]
  }

  /** One outbound call run in a child span of its own, ended as soon as the call returns. */
  function Call(span: string, parent: SpanCtx, url: string): seq<Event>
  {
    Within(span, parent, [Request(url, ChildOf(span))])
  }

  /** A call whose request may not be built. When it is not, `Do(nil)` panics right after
      the span is started: neither the request nor the span's end follows. */
  function Attempt(span: string, parent: SpanCtx, url: string, built: bool): seq<Event>
  {
    if built then Call(span, parent, url) else [SpanStart(span, parent)]
  }

  /** Spans below the open ones play no part in a replay. */
  lemma {:induction false} ReplayUnder(trace: seq<Event>, below: seq<string>, open: seq<string>, closed: seq<string>)
    requires Replay(trace, open) == Some(closed)
    ensures Replay(trace, below + open) == Some(below + closed)
    decreases |trace|
  {
    if trace != [] {
      match trace[0]
      case SpanStart(n, _) =>
        assert below + (open + [n]) == (below + open) + [n];
        ReplayUnder(trace[1..], below, open + [n], closed);
      case SpanEnd(n) =>
        var whole := below + open;
        assert whole[|whole| - 1] == open[|open| - 1];
        assert whole[..|whole| - 1] == below + open[..|open| - 1];
        ReplayUnder(trace[1..], below, open[..|open| - 1], closed);
      case Request(_, _) =>
        ReplayUnder(trace[1..], below, open, closed);
      case SetAttribute(_, _, _) =>
        ReplayUnder(trace[1..], below, open, closed);
      case RecordError(_) =>
        ReplayUnder(trace[1..], below, open, closed);
    }
  }

  /** Replaying a concatenation replays its halves one after the other. */
  lemma {:induction false} ReplayAppend(a: seq<Event>, b: seq<Event>, open: seq<string>)
    ensures Replay(a + b, open) == match Replay(a, open) case None => None case Some(mid) => Replay(b, mid)
    decreases |a|
  {
    if a == [] {
      assert a + b == b;
    } else {
      assert (a + b)[0] == a[0];
      assert (a + b)[1..] == a[1..] + b;
      match a[0]
      case SpanStart(n, _) => ReplayAppend(a[1..], b, open + [n]);
      case SpanEnd(n) =>
        if |open| > 0 && open[|open| - 1] == n {
          ReplayAppend(a[1..], b, open[..|open| - 1]);
        }
      case Request(_, _) => ReplayAppend(a[1..], b, open);
      case SetAttribute(_, _, _) => ReplayAppend(a[1..], b, open);
      case RecordError(_) => ReplayAppend(a[1..], b, open);
    }
  }

  lemma ConcatBracketed(a: seq<Event>, b: seq<Event>)
    requires WellBracketed(a) && WellBracketed(b)
    ensures WellBracketed(a + b)
  {
    ReplayAppend(a, b, []);
  }

  /** A well-bracketed body run inside a span stays well bracketed. */
  lemma WithinBracketed(name: string, parent: SpanCtx, trace: seq<Event>)
    requires WellBracketed(trace)
    ensures WellBracketed(Within(name, parent, trace))
  {
    var start: seq<Event> := [SpanStart(name, parent)];
    var stop: seq<Event> := [SpanEnd(name)];
    assert Replay(start, []) == Some([name]) by {
      assert start[1..] == [];
      assert [] + [name] == [name];
    }
    ReplayUnder(trace, [name], [], []);
    assert [name] + [] == [name];
    ReplayAppend(start, trace, []);
    assert Replay(stop, [name]) == Some([]) by {
      assert stop[1..] == [];
    }
    ReplayAppend(start + trace, stop, []);
  }

  lemma CallBracketed(span: string, parent: SpanCtx, url: string)
    ensures WellBracketed(Call(span, parent, url))
  {
    var body: seq<Event> := [Request(url, ChildOf(span))];
    assert Replay(body, []) == Some([]) by {
      assert body[1..] == [];
    }
    WithinBracketed(span, parent, body);
  }

  /** A replay that starts with the spans `open` and ends with none open ends each name as
      often as it starts it, plus the times it was open to begin with. */
  lemma {:induction false} StartsMatchEndsFrom(trace: seq<Event>, open: seq<string>, name: string)
    requires Replay(trace, open) == Some([])
    ensures Starts(trace, name) + multiset(open)[name] == Ends(trace, name)
    decreases |trace|
  {
    if trace == [] {
    } else {
      match trace[0]
      case SpanStart(n, _) =>
        StartsMatchEndsFrom(trace[1..], open + [n], name);
        assert multiset(open + [n]) == multiset(open) + multiset{n};
      case SpanEnd(n) =>
        var rest := open[..|open| - 1];
        assert open == rest + [n];
        assert multiset(open) == multiset(rest) + multiset{n};
        StartsMatchEndsFrom(trace[1..], rest, name);
      case Request(_, _) => StartsMatchEndsFrom(trace[1..], open, name);
      case SetAttribute(_, _, _) => StartsMatchEndsFrom(trace[1..], open, name);
      case RecordError(_) => StartsMatchEndsFrom(trace[1..], open, name);
    }
  }

  /** In a well-bracketed log every span name is ended exactly as often as it is started. */
  lemma StartsMatchEnds(trace: seq<Event>, name: string)
    requires WellBracketed(trace)
    ensures Starts(trace, name) == Ends(trace, name)
  {
    StartsMatchEndsFrom(trace, [], name);
  }

  lemma {:induction false} StartsAppend(a: seq<Event>, b: seq<Event>, name: string)
    ensures Starts(a + b, name) == Starts(a, name) + Starts(b, name)
    decreases |a|
  {
    if a == [] {
      assert a + b == b;
    } else {
      assert (a + b)[0] == a[0];
      assert (a + b)[1..] == a[1..] + b;
      StartsAppend(a[1..], b, name);
    }
  }

  lemma {:induction false} EndsAppend(a: seq<Event>, b: seq<Event>, name: string)
    ensures Ends(a + b, name) == Ends(a, name) + Ends(b, name)
    decreases |a|
  {
    if a == [] {
      assert a + b == b;
    } else {
      assert (a + b)[0] == a[0];
      assert (a + b)[1..] == a[1..] + b;
      EndsAppend(a[1..], b, name);
    }
  }

  lemma {:induction false} RequestsAppend(a: seq<Event>, b: seq<Event>)
    ensures Requests(a + b) == Requests(a) + Requests(b)
    decreases |a|
  {
    if a == [] {
      assert a + b == b;
    } else {
      assert (a + b)[0] == a[0];
      assert (a + b)[1..] == a[1..] + b;
      RequestsAppend(a[1..], b);
    }
  }

  /** Span counts and requests of a concatenation add up. */
  lemma CountsAppend(a: seq<Event>, b: seq<Event>, name: string)
    ensures Starts(a + b, name) == Starts(a, name) + Starts(b, name)
    ensures Ends(a + b, name) == Ends(a, name) + Ends(b, name)
    ensures Requests(a + b) == Requests(a) + Requests(b)
  {
    StartsAppend(a, b, name);
    EndsAppend(a, b, name);
    RequestsAppend(a, b);
  }

  /** Events that are neither span starts nor span ends leave the open spans as they are. */
  lemma {:induction false} SpanFree(trace: seq<Event>, open: seq<string>, name: string)
    requires forall i :: 0 <= i < |trace| ==> !trace[i].SpanStart? && !trace[i].SpanEnd?
    ensures Replay(trace, open) == Some(open)
    ensures Starts(trace, name) == 0 && Ends(trace, name) == 0
    decreases |trace|
  {
    if trace != [] {
      assert !trace[0].SpanStart? && !trace[0].SpanEnd?;
      SpanFree(trace[1..], open, name);
    }
  }

  lemma WithinCounts(name: string, parent: SpanCtx, trace: seq<Event>, other: string)
    ensures Starts(Within(name, parent, trace), other) == Starts(trace, other) + (if name == other then 1 else 0)
    ensures Ends(Within(name, parent, trace), other) == Ends(trace, other) + (if name == other then 1 else 0)
    ensures Requests(Within(name, parent, trace)) == Requests(trace)
  {
    var start: seq<Event> := [SpanStart(name, parent)];
    var stop: seq<Event> := [SpanEnd(name)];
    assert start[1..] == [] && stop[1..] == [];
    CountsAppend(start, trace, other);
    CountsAppend(start + trace, stop, other);
  }

  lemma CallCounts(span: string, parent: SpanCtx, url: string, other: string)
    ensures Starts(Call(span, parent, url), other) == (if span == other then 1 else 0)
    ensures Ends(Call(span, parent, url), other) == (if span == other then 1 else 0)
    ensures Requests(Call(span, parent, url)) == [url]
  {
    var body: seq<Event> := [Request(url, ChildOf(span))];
    assert body[1..] == [];
    WithinCounts(span, parent, body, other);
  }

  lemma AttemptCounts(span: string, parent: SpanCtx, url: string, built: bool, other: string)
    ensures Starts(Attempt(span, parent, url, built), other) == (if span == other then 1 else 0)
    ensures Ends(Attempt(span, parent, url, built), other) == (if built && span == other then 1 else 0)
    ensures Requests(Attempt(span, parent, url, built)) == (if built then [url] else [])
  {
    if built {
      CallCounts(span, parent, url, other);
    } else {
      assert Attempt(span, parent, url, built)[1..] == [];
    }
  }

  /** A body that leaves one span open, other than `name`, makes the end of `name` fail. */
  lemma WithinUnclosed(name: string, parent: SpanCtx, trace: seq<Event>, left: string)
    requires Replay(trace, []) == Some([left]) && left != name
    ensures !WellBracketed(Within(name, parent, trace))
  {
    var start: seq<Event> := [SpanStart(name, parent)];
    var stop: seq<Event> := [SpanEnd(name)];
    assert Replay(start, []) == Some([name]) by {
      assert start[1..] == [];
      assert [] + [name] == [name];
    }
    ReplayUnder(trace, [name], [], [left]);
    assert [name] + [] == [name];
    ReplayAppend(start, trace, []);
    ReplayAppend(start + trace, stop, []);
    assert Replay(stop, [name, left]) == None;
  }

  /** Every outbound request is sent from a span of its own, and the very next event ends
      that span: nothing happens between the call returning and its span closing. */
  predicate CallsEndTheirSpans(trace: seq<Event>)
  {
    forall i :: 0 <= i < |trace| && trace[i].Request? ==>
      trace[i].ctx.ChildOf? && i + 1 < |trace| && trace[i + 1] == SpanEnd(trace[i].ctx.span)
  }

  lemma CallEndsItsSpan(span: string, parent: SpanCtx, url: string)
    ensures CallsEndTheirSpans(Call(span, parent, url))
  {
    var c := Call(span, parent, url);
    assert c == [SpanStart(span, parent), Request(url, ChildOf(span)), SpanEnd(span)];
  }

  /** An attempt leaves its span open exactly when the request is not built. */
  lemma AttemptReplay(span: string, parent: SpanCtx, url: string, built: bool)
    ensures Replay(Attempt(span, parent, url, built), []) == Some(if built then [] else [span])
    ensures CallsEndTheirSpans(Attempt(span, parent, url, built))
  {
    if built {
      CallBracketed(span, parent, url);
      CallEndsItsSpan(span, parent, url);
    } else {
      var a := Attempt(span, parent, url, built);
      assert a[1..] == [];
      assert [] + [span] == [span];
    }
  }

  lemma ConcatEndsSpans(a: seq<Event>, b: seq<Event>)
    requires CallsEndTheirSpans(a) && CallsEndTheirSpans(b)
    ensures CallsEndTheirSpans(a + b)
  {
    var ab := a + b;
    forall i | 0 <= i < |ab| && ab[i].Request?
      ensures ab[i].ctx.ChildOf? && i + 1 < |ab| && ab[i + 1] == SpanEnd(ab[i].ctx.span)
    {
      if i < |a| {
        assert ab[i] == a[i] && ab[i + 1] == a[i + 1];
      } else {
        assert ab[i] == b[i - |a|] && ab[i + 1] == b[i + 1 - |a|];
      }
    }
  }

  lemma WithinEndsSpans(name: string, parent: SpanCtx, trace: seq<Event>)
    requires CallsEndTheirSpans(trace)
    ensures CallsEndTheirSpans(Within(name, parent, trace))
  {
    var w := Within(name, parent, trace);
    forall i | 0 <= i < |w| && w[i].Request?
      ensures w[i].ctx.ChildOf? && i + 1 < |w| && w[i + 1] == SpanEnd(w[i].ctx.span)
    {
      assert 0 < i < |w| - 1;
      assert w[i] == trace[i - 1] && w[i + 1] == trace[i];
    }
  }
}
