/** The pull-style decoder of upstream events, and the batch reader on top of it. */
module Decoder {
  import opened Core

  datatype Usage = Usage(prompt: int, candidates: int, total: int)

  datatype Candidate = Candidate(parts: seq<Part>, finishReason: string)

  /** One line of the upstream stream, already parsed. Noise is any line that decodes to nothing. */
  datatype Line =
    | Noise
    | ErrorLine(message: string)
    | Response(candidates: seq<Candidate>, usage: Option<Usage>)

  /** How the byte stream stops: cleanly, or with a read error that every later read repeats. */
  datatype End = Eof | Broken(message: string)

  datatype DecodeError = Upstream(message: string) | Read(message: string) | Premature

  datatype StreamEvent =
    | PartEvent(part: Part)
    | UsageEvent(usage: Usage)
    | TerminalEvent(reason: string)
    | ErrorEvent(error: DecodeError)

  datatype NextResult = Event(event: StreamEvent) | Failure(error: DecodeError) | AtEof

  // ----- what a stream says, independently of how it is cut into lines and candidates

  function CandidateParts(cs: seq<Candidate>): seq<Part> {
    if cs == [] then [] else CandidateParts(cs[..|cs| - 1]) + cs[|cs| - 1].parts
  }

  /** The last non-empty finish reason; empty if there is none. */
  function CandidateReason(cs: seq<Candidate>): string {
    if cs == [] then ""
    else if cs[|cs| - 1].finishReason != "" then cs[|cs| - 1].finishReason
    else CandidateReason(cs[..|cs| - 1])
  }

  function AllParts(lines: seq<Line>): seq<Part> {
    if lines == [] then []
    else AllParts(lines[..|lines| - 1]) +
         if lines[|lines| - 1].Response? then CandidateParts(lines[|lines| - 1].candidates) else []
  }

  function LastReason(lines: seq<Line>): string {
    if lines == [] then ""
    else
      var last := lines[|lines| - 1];
      if last.Response? && CandidateReason(last.candidates) != "" then CandidateReason(last.candidates)
      else LastReason(lines[..|lines| - 1])
  }

  function LastUsage(lines: seq<Line>): Option<Usage> {
    if lines == [] then None
    else
      var last := lines[|lines| - 1];
      if last.Response? && last.usage.Some? then last.usage else LastUsage(lines[..|lines| - 1])
  }

  /** The lines before the first error line. */
  function BeforeError(lines: seq<Line>): (n: nat)
    ensures n <= |lines|
    ensures forall i :: 0 <= i < n ==> !lines[i].ErrorLine?
    ensures n < |lines| ==> lines[n].ErrorLine?
  {
    if lines == [] || lines[0].ErrorLine? then 0 else 1 + BeforeError(lines[1..])
  }

  datatype Collected = Collected(parts: seq<Part>, usage: Option<Usage>, reason: string)

  /** The whole stream read at once. */
  function Decoded(lines: seq<Line>, end: End): Result<Collected, DecodeError> {
    var n := BeforeError(lines);
    if n < |lines| then Err(Upstream(lines[n].message))
    else if end.Broken? then Err(Read(end.message))
    else if LastReason(lines) == "" then Err(Premature)
    else Ok(Collected(AllParts(lines), LastUsage(lines), LastReason(lines)))
  }

  // ----- the events a decoder delivers

  function PartEvents(ps: seq<Part>): (es: seq<StreamEvent>)
    ensures |es| == |ps| && forall i :: 0 <= i < |ps| ==> es[i] == PartEvent(ps[i])
  {
    seq(|ps|, i requires 0 <= i < |ps| => PartEvent(ps[i]))
  }

  function PendingEvents(ps: seq<Part>, reason: string): seq<StreamEvent> {
    PartEvents(ps) + if reason == "" then [] else [TerminalEvent(reason)]
  }

  function LineEvents(line: Line): seq<StreamEvent> {
    match line
    case Noise => []
    case ErrorLine(e) => [ErrorEvent(Upstream(e))]
    case Response(cs, usage) =>
      (if usage.Some? then [UsageEvent(usage.value)] else []) + PendingEvents(CandidateParts(cs), CandidateReason(cs))
  }

  /** All events of a stream, up to and including the first error. */
  function Script(lines: seq<Line>): seq<StreamEvent> {
    if lines == [] then []
    else if lines[0].ErrorLine? then LineEvents(lines[0])
    else LineEvents(lines[0]) + Script(lines[1..])
  }

  lemma ScriptStep(lines: seq<Line>, pos: nat)
    requires pos <= |lines|
    ensures pos == |lines| ==> Script(lines[pos..]) == []
    ensures pos < |lines| ==>
              Script(lines[pos..]) == LineEvents(lines[pos]) + if lines[pos].ErrorLine? then [] else Script(lines[pos + 1..])
  {
    if pos < |lines| {
      assert lines[pos..][0] == lines[pos] && lines[pos..][1..] == lines[pos + 1..];
    }
  }

  /** The first pending event. */
  lemma PopEvents(ps: seq<Part>, reason: string, rest: seq<StreamEvent>)
    ensures ps != [] ==> PendingEvents(ps, reason) + rest == [PartEvent(ps[0])] + (PendingEvents(ps[1..], reason) + rest)
    ensures ps == [] && reason != "" ==> PendingEvents(ps, reason) + rest == [TerminalEvent(reason)] + (PendingEvents([], "") + rest)
  {
    if ps != [] {
      assert PartEvents(ps) == [PartEvent(ps[0])] + PartEvents(ps[1..]);
    }
  }

  lemma ResponseEvents(line: Line, rest: seq<StreamEvent>)
    requires line.Response?
    ensures var queued := PendingEvents(CandidateParts(line.candidates), CandidateReason(line.candidates)) + rest;
            LineEvents(line) + rest == if line.usage.Some? then [UsageEvent(line.usage.value)] + queued else queued
  {
  }

  lemma NothingPending()
    ensures PendingEvents([], "") == []
  {
  }

  class UpstreamDecoder {
    const lines: seq<Line>
    const end: End
    var pos: nat
    var pendingParts: seq<Part>
    var pendingTerminal: string
    var terminalReceived: bool
    var readErr: Option<DecodeError>

    ghost predicate Valid()
      reads this
    {
      pos <= |lines| && (readErr.Some? ==> pendingParts == [] && pendingTerminal == "")
    }

    /** Events still to be delivered while no error was met. */
    ghost function ToCome(): seq<StreamEvent>
      requires Valid()
      reads this
    {
      PendingEvents(pendingParts, pendingTerminal) + Script(lines[pos..])
    }

    constructor (lines: seq<Line>, end: End)
      ensures Valid() && readErr.None? && !terminalReceived
      ensures this.lines == lines && this.end == end && ToCome() == Script(lines)
    {
      this.lines, this.end := lines, end;
      pos, pendingParts, pendingTerminal := 0, [], "";
      terminalReceived, readErr := false, None;
    }

    method PopPending() returns (e: StreamEvent)
      requires Valid() && readErr.None? && (pendingParts != [] || pendingTerminal != "")
      modifies this
      ensures Valid() && readErr.None? && pos == old(pos)
      ensures old(ToCome()) == [e] + ToCome() && !e.ErrorEvent?
      ensures terminalReceived == (old(terminalReceived) || e.TerminalEvent?)
      ensures |pendingParts| + |pendingTerminal| < old(|pendingParts| + |pendingTerminal|)
    {
      hide Script, PendingEvents;
      PopEvents(pendingParts, pendingTerminal, Script(lines[pos..]));
      if pendingParts != [] {
        e := PartEvent(pendingParts[0]);
        pendingParts := pendingParts[1..];
      } else {
        e := TerminalEvent(pendingTerminal);
        pendingTerminal := "";
        terminalReceived := true;
      }
    }

    /** Queues the parts of every candidate; the last finish reason wins. */
    method Enqueue(cs: seq<Candidate>)
      requires Valid() && readErr.None? && pendingParts == [] && pendingTerminal == ""
      modifies this`pendingParts, this`pendingTerminal
      ensures Valid() && pendingParts == CandidateParts(cs) && pendingTerminal == CandidateReason(cs)
    {
      for i := 0 to |cs|
        invariant pendingParts == CandidateParts(cs[..i]) && pendingTerminal == CandidateReason(cs[..i])
      {
        assert cs[..i + 1][..i] == cs[..i];
        if |cs[i].parts| > 0 {
          pendingParts := pendingParts + cs[i].parts;
        }
        if cs[i].finishReason != "" {
          pendingTerminal := cs[i].finishReason;
        }
      }
      assert cs[..|cs|] == cs;
    }

    /** Reads one line and delivers its first event, if it has one. */
    method ReadLine() returns (r: Option<StreamEvent>)
      requires Valid() && readErr.None? && pendingParts == [] && pendingTerminal == "" && pos < |lines|
      modifies this
      ensures Valid() && pos == old(pos) + 1
      ensures r.None? ==>
                && ToCome() == old(ToCome()) && readErr.None? && pendingParts == [] && pendingTerminal == ""
                && terminalReceived == old(terminalReceived)
      ensures r.Some? ==>
                && old(ToCome()) != [] && old(ToCome())[0] == r.value
                && terminalReceived == (old(terminalReceived) || r.value.TerminalEvent?)
                && (if r.value.ErrorEvent? then readErr == Some(r.value.error)
                    else readErr.None? && ToCome() == old(ToCome())[1..])
    {
      hide Script, CandidateParts, CandidateReason, PartEvents, PendingEvents;
      var line := lines[pos];
      ScriptStep(lines, pos);
      NothingPending();
      ghost var rest := Script(lines[pos + 1..]);
      assert ToCome() == LineEvents(line) + if line.ErrorLine? then [] else rest;
      assert [] + rest == rest;
      pos := pos + 1;
      r := None;
      match line
      case Noise =>
      case ErrorLine(e) =>
        readErr := Some(Upstream(e));
        r := Some(ErrorEvent(Upstream(e)));
      case Response(cs, usage) =>
        Enqueue(cs);
        ghost var queued := ToCome();
        ResponseEvents(line, rest);
        if usage.Some? {
          r := Some(UsageEvent(usage.value));
        } else if pendingParts != [] || pendingTerminal != "" {
          var e := PopPending();
          r := Some(e);
        }
    }

    method Next() returns (r: NextResult)
      requires Valid()
      modifies this
      ensures Valid()
      ensures old(readErr).Some? ==> r == Failure(old(readErr).value) && readErr.None?
      ensures old(readErr).None? && old(ToCome()) != [] ==>
                && r.Event? && r.event == old(ToCome())[0]
                && (if r.event.ErrorEvent? then readErr == Some(r.event.error)
                    else readErr.None? && ToCome() == old(ToCome())[1..])
      ensures old(readErr).None? && old(ToCome()) == [] ==>
                && readErr.None? && ToCome() == []
                && r == if end.Broken? then Failure(Read(end.message))
                        else if terminalReceived then AtEof else Failure(Premature)
      ensures terminalReceived == (old(terminalReceived) || (r.Event? && r.event.TerminalEvent?))
    {
      hide Script, LineEvents;
      if pendingParts != [] || pendingTerminal != "" {
        var e := PopPending();
        return Event(e);
      }
      if readErr.Some? {
        r := Failure(readErr.value);
        readErr := None;
        return;
      }
      while pos < |lines|
        invariant Valid() && readErr.None? && pendingParts == [] && pendingTerminal == ""
        invariant ToCome() == old(ToCome()) && terminalReceived == old(terminalReceived)
      {
        var event := ReadLine();
        if event.Some? {
          return Event(event.value);
        }
      }
      NothingPending();
      ScriptStep(lines, pos);
      if end.Broken? {
        return Failure(Read(end.message));
      }
      return if terminalReceived then AtEof else Failure(Premature);
    }
  }

  // ----- reading the events back

  function PartsOf(es: seq<StreamEvent>): seq<Part> {
    if es == [] then [] else PartsOf(es[..|es| - 1]) + if es[|es| - 1].PartEvent? then [es[|es| - 1].part] else []
  }

  function ReasonOf(es: seq<StreamEvent>): string {
    if es == [] then "" else if es[|es| - 1].TerminalEvent? then es[|es| - 1].reason else ReasonOf(es[..|es| - 1])
  }

  function UsageOf(es: seq<StreamEvent>): Option<Usage> {
    if es == [] then None else if es[|es| - 1].UsageEvent? then Some(es[|es| - 1].usage) else UsageOf(es[..|es| - 1])
  }

  predicate NoError(es: seq<StreamEvent>) {
    forall i :: 0 <= i < |es| ==> !es[i].ErrorEvent?
  }

  predicate SawTerminal(es: seq<StreamEvent>) {
    exists i :: 0 <= i < |es| && es[i].TerminalEvent?
  }

  lemma Snoc(es: seq<StreamEvent>, e: StreamEvent)
    ensures PartsOf(es + [e]) == PartsOf(es) + if e.PartEvent? then [e.part] else []
    ensures ReasonOf(es + [e]) == if e.TerminalEvent? then e.reason else ReasonOf(es)
    ensures UsageOf(es + [e]) == if e.UsageEvent? then Some(e.usage) else UsageOf(es)
    ensures SawTerminal(es + [e]) <==> SawTerminal(es) || e.TerminalEvent?
  {
    hide SawTerminal;
    assert (es + [e])[..|es|] == es;
    TerminalConcat(es, [e]);
    OneTerminal(e);
  }

  lemma OneTerminal(e: StreamEvent)
    ensures SawTerminal([e]) <==> e.TerminalEvent?
  {
    assert [e][0] == e;
  }

  lemma {:induction false} EventsConcat(a: seq<StreamEvent>, b: seq<StreamEvent>)
    ensures PartsOf(a + b) == PartsOf(a) + PartsOf(b)
    ensures ReasonOf(a + b) == if SawTerminal(b) then ReasonOf(b) else ReasonOf(a)
    ensures UsageOf(a + b) == if UsageOf(b).Some? then UsageOf(b) else UsageOf(a)
    ensures SawTerminal(a + b) <==> SawTerminal(a) || SawTerminal(b)
  {
    hide PartsOf, ReasonOf, UsageOf, SawTerminal;
    TerminalConcat(a, b);
    if b == [] {
      assert a + b == a;
      NothingSaid();
    } else {
      var n := |b| - 1;
      EventsConcat(a, b[..n]);
      ConcatSnoc(a, b[..n], b[n]);
      assert b[..n] + [b[n]] == b;
    }
  }

  lemma NothingSaid()
    ensures PartsOf([]) == [] && ReasonOf([]) == "" && UsageOf([]) == None && !SawTerminal([])
  {
  }

  lemma ConcatSnoc(a: seq<StreamEvent>, b: seq<StreamEvent>, e: StreamEvent)
    requires PartsOf(a + b) == PartsOf(a) + PartsOf(b)
    requires ReasonOf(a + b) == if SawTerminal(b) then ReasonOf(b) else ReasonOf(a)
    requires UsageOf(a + b) == if UsageOf(b).Some? then UsageOf(b) else UsageOf(a)
    ensures PartsOf(a + (b + [e])) == PartsOf(a) + PartsOf(b + [e])
    ensures ReasonOf(a + (b + [e])) == if SawTerminal(b + [e]) then ReasonOf(b + [e]) else ReasonOf(a)
    ensures UsageOf(a + (b + [e])) == if UsageOf(b + [e]).Some? then UsageOf(b + [e]) else UsageOf(a)
  {
    hide PartsOf, ReasonOf, UsageOf, SawTerminal;
    assert a + (b + [e]) == (a + b) + [e];
    Snoc(a + b, e);
    Snoc(b, e);
  }

  lemma TerminalConcat(a: seq<StreamEvent>, b: seq<StreamEvent>)
    ensures SawTerminal(a + b) <==> SawTerminal(a) || SawTerminal(b)
  {
    if SawTerminal(a) {
      var i :| 0 <= i < |a| && a[i].TerminalEvent?;
      assert (a + b)[i].TerminalEvent?;
    }
    if SawTerminal(b) {
      var i :| 0 <= i < |b| && b[i].TerminalEvent?;
      assert (a + b)[|a| + i].TerminalEvent?;
    }
  }

  lemma {:induction false} OfPartEvents(ps: seq<Part>)
    ensures PartsOf(PartEvents(ps)) == ps && UsageOf(PartEvents(ps)).None?
    ensures !SawTerminal(PartEvents(ps)) && ReasonOf(PartEvents(ps)) == ""
  {
    if ps != [] {
      var n := |ps| - 1;
      OfPartEvents(ps[..n]);
      assert PartEvents(ps)[..n] == PartEvents(ps[..n]);
      assert ps[..n] + [ps[n]] == ps;
    }
  }

  lemma OfTerminal(reason: string)
    ensures var es: seq<StreamEvent> := if reason == "" then [] else [TerminalEvent(reason)];
            PartsOf(es) == [] && UsageOf(es).None? && (SawTerminal(es) <==> reason != "") && ReasonOf(es) == reason
  {
    assert [TerminalEvent(reason)][0].TerminalEvent?;
    assert [TerminalEvent(reason)][..0] == [];
  }

  lemma OfUsage(usage: Option<Usage>)
    ensures var es: seq<StreamEvent> := if usage.Some? then [UsageEvent(usage.value)] else [];
            PartsOf(es) == [] && UsageOf(es) == usage && !SawTerminal(es) && ReasonOf(es) == ""
  {
    if usage.Some? {
      assert [UsageEvent(usage.value)][..0] == [];
    }
  }

  lemma OfLine(line: Line)
    requires !line.ErrorLine?
    ensures PartsOf(LineEvents(line)) == if line.Response? then CandidateParts(line.candidates) else []
    ensures UsageOf(LineEvents(line)) == if line.Response? then line.usage else None
    ensures SawTerminal(LineEvents(line)) <==> line.Response? && CandidateReason(line.candidates) != ""
    ensures SawTerminal(LineEvents(line)) ==> ReasonOf(LineEvents(line)) == CandidateReason(line.candidates)
  {
    if line.Response? {
      OfResponse(CandidateParts(line.candidates), CandidateReason(line.candidates), line.usage);
    }
  }

  lemma OfResponse(ps: seq<Part>, reason: string, usage: Option<Usage>)
    ensures var es := (if usage.Some? then [UsageEvent(usage.value)] else []) + PendingEvents(ps, reason);
            && PartsOf(es) == ps && UsageOf(es) == usage
            && (SawTerminal(es) <==> reason != "") && ReasonOf(es) == reason
  {
    hide PartsOf, UsageOf, ReasonOf, SawTerminal, PartEvents;
    OfUsage(usage);
    OfPartEvents(ps);
    OfTerminal(reason);
    var tail := if reason == "" then [] else [TerminalEvent(reason)];
    EventsConcat(PartEvents(ps), tail);
    EventsConcat(if usage.Some? then [UsageEvent(usage.value)] else [], PartEvents(ps) + tail);
    assert ps + [] == ps && [] + ps == ps;
  }

  lemma {:induction false} ScriptSnoc(lines: seq<Line>, line: Line)
    requires forall i :: 0 <= i < |lines| ==> !lines[i].ErrorLine?
    ensures Script(lines + [line]) == Script(lines) + LineEvents(line)
  {
    hide LineEvents;
    if lines != [] {
      assert (lines + [line])[1..] == lines[1..] + [line];
      ScriptSnoc(lines[1..], line);
    } else {
      assert [line][1..] == [];
    }
  }

  /** The events of a stream without errors hold exactly its parts, its last reason and its last usage. */
  lemma {:induction false} ScriptSays(lines: seq<Line>)
    requires forall i :: 0 <= i < |lines| ==> !lines[i].ErrorLine?
    ensures PartsOf(Script(lines)) == AllParts(lines)
    ensures UsageOf(Script(lines)) == LastUsage(lines)
    ensures ReasonOf(Script(lines)) == LastReason(lines)
    ensures SawTerminal(Script(lines)) <==> LastReason(lines) != ""
  {
    if lines != [] {
      var n := |lines| - 1;
      ScriptSays(lines[..n]);
      ScriptSnoc(lines[..n], lines[n]);
      assert lines[..n] + [lines[n]] == lines;
      OfLine(lines[n]);
      EventsConcat(Script(lines[..n]), LineEvents(lines[n]));
    }
  }

  lemma {:induction false} CleanScript(lines: seq<Line>)
    requires forall i :: 0 <= i < |lines| ==> !lines[i].ErrorLine?
    ensures NoError(Script(lines))
  {
    if lines != [] {
      CleanScript(lines[1..]);
    }
  }

  /** An error line ends the script; everything before it is delivered first. */
  lemma {:induction false} ScriptUntilError(lines: seq<Line>)
    ensures var n := BeforeError(lines);
            Script(lines) == Script(lines[..n]) + if n < |lines| then [ErrorEvent(Upstream(lines[n].message))] else []
  {
    hide NoError, LineEvents;
    var n := BeforeError(lines);
    if lines == [] || lines[0].ErrorLine? {
      ErrorEvents(lines);
      assert lines[..0] == [];
    } else {
      ScriptUntilError(lines[1..]);
      ScriptTail(lines, n);
    }
  }

  lemma ErrorEvents(lines: seq<Line>)
    requires lines != [] ==> lines[0].ErrorLine?
    ensures Script(lines) == if lines == [] then [] else [ErrorEvent(Upstream(lines[0].message))]
  {
  }

  lemma ScriptTail(lines: seq<Line>, n: nat)
    requires 0 < n <= |lines| && !lines[0].ErrorLine?
    ensures Script(lines[..n]) == LineEvents(lines[0]) + Script(lines[1..][..n - 1])
    ensures Script(lines) == LineEvents(lines[0]) + Script(lines[1..])
  {
    assert lines[..n][1..] == lines[1..][..n - 1];
  }

  /** What reading all of `consumed` means, once nothing is left to come. */
  lemma WholeScript(lines: seq<Line>)
    ensures NoError(Script(lines)) <==> BeforeError(lines) == |lines|
    ensures NoError(Script(lines)) ==>
              && PartsOf(Script(lines)) == AllParts(lines)
              && UsageOf(Script(lines)) == LastUsage(lines)
              && ReasonOf(Script(lines)) == LastReason(lines)
              && (SawTerminal(Script(lines)) <==> LastReason(lines) != "")
  {
    hide Script;
    ScriptUntilError(lines);
    var n := BeforeError(lines);
    assert n == |lines| ==> lines[..n] == lines;
    if n == |lines| {
      CleanScript(lines);
      ScriptSays(lines);
    } else {
      assert Script(lines)[|Script(lines[..n])|].ErrorEvent?;
    }
  }

  /** The first error event is the first error line's. */
  lemma ErrorReached(lines: seq<Line>, consumed: seq<StreamEvent>, e: StreamEvent, rest: seq<StreamEvent>)
    requires Script(lines) == consumed + [e] + rest && NoError(consumed) && e.ErrorEvent?
    ensures BeforeError(lines) < |lines| && e == ErrorEvent(Upstream(lines[BeforeError(lines)].message))
    ensures consumed == Script(lines[..BeforeError(lines)])
  {
    hide Script, BeforeError;
    var n := BeforeError(lines);
    ScriptUntilError(lines);
    CleanScript(lines[..n]);
    var clean := Script(lines[..n]);
    assert Script(lines)[|consumed|] == e;
    if |consumed| < |clean| {
      assert false;
    } else {
      assert |Script(lines)| <= |clean| + 1;
      assert consumed == Script(lines)[..|clean|] == clean;
    }
  }

  /** What has been collected after the events `es`. */
  function CollectedFrom(es: seq<StreamEvent>): Collected {
    Collected(PartsOf(es), UsageOf(es), ReasonOf(es))
  }

  lemma NothingConsumed()
    ensures CollectedFrom([]) == Collected([], None, "") && !SawTerminal([]) && NoError([])
  {
  }

  lemma OneEvent(es: seq<StreamEvent>, e: StreamEvent)
    ensures var c, c' := CollectedFrom(es), CollectedFrom(es + [e]);
            match e
            case PartEvent(p) => c' == c.(parts := c.parts + [p])
            case UsageEvent(u) => c' == c.(usage := Some(u))
            case TerminalEvent(reason) => c' == c.(reason := reason)
            case ErrorEvent(_) => c' == c
    ensures SawTerminal(es + [e]) <==> SawTerminal(es) || e.TerminalEvent?
    ensures NoError(es + [e]) <==> NoError(es) && !e.ErrorEvent?
  {
    Snoc(es, e);
    if NoError(es + [e]) {
      assert forall i :: 0 <= i < |es| ==> es[i] == (es + [e])[i];
      assert (es + [e])[|es|] == e;
    }
  }

  /** The result once every event was consumed. */
  lemma Exhausted(lines: seq<Line>, end: End, consumed: seq<StreamEvent>)
    requires consumed == Script(lines) && NoError(consumed)
    ensures Decoded(lines, end) ==
            if end.Broken? then Err(Read(end.message))
            else if SawTerminal(consumed) then Ok(CollectedFrom(consumed)) else Err(Premature)
  {
    hide Script, PartsOf, UsageOf, ReasonOf, SawTerminal, NoError, LastReason, AllParts, LastUsage, BeforeError;
    WholeScript(lines);
  }

  /** The batch reader: the stream's parts, last usage and last reason, or the first thing that went wrong. */
  method AccumulateTurn(decoder: UpstreamDecoder) returns (r: Result<Collected, DecodeError>)
    requires decoder.Valid() && decoder.readErr.None? && !decoder.terminalReceived
    requires decoder.ToCome() == Script(decoder.lines)
    modifies decoder
    ensures r == Decoded(decoder.lines, decoder.end)
  {
    hide Script, CollectedFrom, SawTerminal, NoError, BeforeError, Decoded, LastReason, AllParts, LastUsage, PendingEvents;
    NothingConsumed();
    var acc := Collected([], None, "");
    var terminalReceived := false;
    ghost var consumed: seq<StreamEvent> := [];
    while true
      invariant decoder.Valid() && decoder.readErr.None?
      invariant consumed + decoder.ToCome() == Script(decoder.lines)
      invariant NoError(consumed) && acc == CollectedFrom(consumed)
      invariant terminalReceived == decoder.terminalReceived == SawTerminal(consumed)
      decreases |decoder.ToCome()|
    {
      ghost var before := decoder.ToCome();
      var next := decoder.Next();
      if !next.Event? {
        assert consumed == Script(decoder.lines) by {
          assert before == [] && consumed + [] == consumed;
        }
        Exhausted(decoder.lines, decoder.end, consumed);
        if next.Failure? {
          return Err(next.error);
        }
        break;
      }
      var e := next.event;
      assert consumed + before == consumed + [e] + before[1..];
      if e.ErrorEvent? {
        ErrorDecoded(decoder.lines, decoder.end, consumed, e, before[1..]);
        return Err(e.error);
      }
      OneEvent(consumed, e);
      match e {
        case PartEvent(p) => acc := acc.(parts := acc.parts + [p]);
        case UsageEvent(u) => acc := acc.(usage := Some(u));
        case TerminalEvent(reason) =>
          acc := acc.(reason := reason);
          terminalReceived := true;
      }
      consumed := consumed + [e];
    }
    if !terminalReceived {
      return Err(Premature);
    }
    return Ok(acc);
  }

  lemma ErrorDecoded(lines: seq<Line>, end: End, consumed: seq<StreamEvent>, e: StreamEvent, rest: seq<StreamEvent>)
    requires Script(lines) == consumed + [e] + rest && NoError(consumed) && e.ErrorEvent?
    ensures Decoded(lines, end) == Err(e.error)
  {
    hide Script, NoError, BeforeError;
    ErrorReached(lines, consumed, e, rest);
  }
}
