/**
 * The loop that turns the app-server's notifications for one turn into the
 * events Podiom streams, and the whole-turn views it has to agree with: the
 * reasoning text of the completed turn, and the tokens to bill.
 */
module StreamTurn {
  import opened Seqs
  import opened Text

  const FINAL: string := "final_answer"

  /** One breakdown of a token-usage notification; a count the provider left out is None. */
  datatype Tokens = Tokens(total: Option<int>, input: Option<int>, cached: Option<int>, output: Option<int>, reasoning: Option<int>)

  datatype TurnUsage = TurnUsage(input: int, output: int, cacheRead: int, cacheWrite: int)

  /** An item of a completed turn. */
  datatype TurnItem = TurnItem(kind: string, text: string, phase: string)

  datatype ErrorKind = RateLimitError | AuthError | OtherError

  /** A decoded notification. What the loop only passes on stays abstract text. */
  datatype Notification =
    | Broken(reason: string)
    | AgentDelta(text: string, item: string, phase: string)
    | ItemNote(activities: seq<string>, tools: seq<string>, plan: Option<string>)
    | Completed(activities: seq<string>, items: seq<TurnItem>)
    | ErrorNote(kind: ErrorKind, text: string)
    | RateLimits(status: Option<string>)
    | TokenUsage(window: int, total: Option<Tokens>, last: Option<Tokens>)
    | Other

  datatype Event =
    | First(text: string)
    | AssistantDelta(text: string)
    | ReasoningDelta(text: string)
    | ReasoningMessage(text: string)
    | AssistantMessage(text: string)
    | Activity(text: string)
    | ToolUse(text: string)
    | PlanProposed(text: string)
    | RateStatus(text: string)
    | ContextStatus(used: int, max: int)
    | Billed(usage: TurnUsage)
    | RateLimited(text: string)
    | AuthRequired(text: string)
    | TurnDone

  /** What the loop remembers between notifications. */
  datatype Track = Track(streamedReasoning: bool, lastReasoningItem: string, lastTokenTotal: int)

  const FRESH: Track := Track(false, "", 0)

  // --------------------------------------------------------- pure readings

  predicate IsReasoning(phase: string) {
    phase != "" && phase != FINAL
  }

  function Texts(items: seq<TurnItem>, reasoning: bool): seq<string> {
    if items == [] then []
    else
      var item := items[0];
      var keep := item.kind == "agentMessage" && !Blank(item.text)
        && (if reasoning then IsReasoning(item.phase) else item.phase == FINAL);
      (if keep then [item.text] else []) + Texts(items[1..], reasoning)
  }

  function WholeReasoning(items: seq<TurnItem>): string {
    Join(Texts(items, true), "\n")
  }

  function FinalMessage(items: seq<TurnItem>): string {
    Join(Texts(items, false), "\n")
  }

  function Count(n: Option<int>): int {
    if n.Some? then n.value else 0
  }

  /** The provider's own total when it gives a positive one, else input plus output. */
  function TotalTokens(tokens: Option<Tokens>): int {
    match tokens
    case None => 0
    case Some(t) => if Count(t.total) > 0 then Count(t.total) else Count(t.input) + Count(t.output)
  }

  function Context(window: int, last: Option<Tokens>): seq<Event> {
    if window > 0 && TotalTokens(last) > 0 then [ContextStatus(TotalTokens(last), window)] else []
  }

  function Total(u: TurnUsage): int {
    u.input + u.output + u.cacheRead + u.cacheWrite
  }

  /** The tokens one request is billed for, if any: cached input is counted once, as a cache read. */
  function UsageOf(last: Option<Tokens>): (r: Option<TurnUsage>)
    ensures r.Some? ==>
      && last.Some? && Total(r.value) > 0
      && r.value.input >= 0 && r.value.cacheWrite == 0 && r.value.cacheRead == Count(last.value.cached)
      && r.value.input + r.value.cacheRead
         == (if Count(last.value.input) > Count(last.value.cached) then Count(last.value.input) else Count(last.value.cached))
    ensures r.Some? ==> r.value.output == Count(last.value.output) + Count(last.value.reasoning)
    ensures r.None? && last.Some? ==>
      Count(last.value.output) + Count(last.value.reasoning)
      + (if Count(last.value.input) > Count(last.value.cached) then Count(last.value.input) else Count(last.value.cached)) <= 0
  {
    match last
    case None => None
    case Some(t) =>
      var cached := Count(t.cached);
      var uncached := if Count(t.input) - cached > 0 then Count(t.input) - cached else 0;
      var u := TurnUsage(uncached, Count(t.output) + Count(t.reasoning), cached, 0);
      if Total(u) <= 0 then None else Some(u)
  }

  // -------------------------------------------------------------- one step

  datatype Handled = Handled(track: Track, events: seq<Event>, done: bool)

  function Firsts(texts: seq<string>): (r: seq<Event>)
    ensures |r| == |texts| && forall i :: 0 <= i < |r| ==> r[i] == First(texts[i])
  {
    seq(|texts|, i requires 0 <= i < |texts| => First(texts[i]))
  }

  function Activities(texts: seq<string>): seq<Event> {
    seq(|texts|, i requires 0 <= i < |texts| => Activity(texts[i]))
  }

  function ToolUses(texts: seq<string>): seq<Event> {
    seq(|texts|, i requires 0 <= i < |texts| => ToolUse(texts[i]))
  }

  function Separated(t: Track, text: string, item: string): string {
    if t.streamedReasoning && item != t.lastReasoningItem then "\n" + text else text
  }

  /** What one notification makes the loop emit and remember, and whether the turn ends. */
  function Handle(t: Track, n: Notification): Handled {
    match n
    case Broken(reason) => Handled(t, [AssistantMessage(reason)], true)
    case AgentDelta(text, item, phase) =>
      if text == "" then Handled(t, [], false)
      else if !IsReasoning(phase) then Handled(t, [AssistantDelta(text)], false)
      else Handled(t.(streamedReasoning := true, lastReasoningItem := item),
                   [ReasoningDelta(Separated(t, text, item))], false)
    case ItemNote(activities, tools, plan) =>
      Handled(t, Activities(activities) + ToolUses(tools)
                 + (if plan.Some? then [PlanProposed(plan.value)] else []), false)
    case Completed(activities, items) =>
      Handled(t, Activities(activities)
                 + (if !t.streamedReasoning && WholeReasoning(items) != "" then [ReasoningMessage(WholeReasoning(items))] else [])
                 + (if FinalMessage(items) != "" then [AssistantMessage(FinalMessage(items))] else [])
                 + [TurnDone], true)
    case ErrorNote(kind, text) =>
      var report := match kind
        case RateLimitError => RateLimited(text)
        case AuthError => AuthRequired(text)
        case OtherError => AssistantMessage(text);
      Handled(t, [report, TurnDone], true)
    case RateLimits(status) =>
      Handled(t, if status.Some? then [RateStatus(status.value)] else [], false)
    case TokenUsage(window, total, last) =>
      var sum := TotalTokens(total);
      if sum > t.lastTokenTotal then
        Handled(t.(lastTokenTotal := sum),
                Context(window, last) + (if UsageOf(last).Some? then [Billed(UsageOf(last).value)] else []), false)
      else Handled(t, Context(window, last), false)
    case Other => Handled(t, [], false)
  }

  /** Everything a turn emits: notification by notification, until one ends it. */
  function Stream(t: Track, notes: seq<Notification>): seq<Event>
    decreases |notes|
  {
    if notes == [] then []
    else
      var h := Handle(t, notes[0]);
      if h.done then h.events else h.events + Stream(h.track, notes[1..])
  }

  // -------------------------------------------------------------- the loop

  function Cut(events: seq<Event>, room: nat): (r: seq<Event>)
    ensures r <= events && |r| == if |events| <= room then |events| else room
  {
    if |events| <= room then events else events[..room]
  }

  lemma {:induction false} StreamStep(t: Track, notes: seq<Notification>, i: nat)
    requires i < |notes|
    ensures var h := Handle(t, notes[i]);
      Stream(t, notes[i..]) == h.events + if h.done then [] else Stream(h.track, notes[i + 1..])
  {
    assert notes[i..][0] == notes[i] && notes[i..][1..] == notes[i + 1..];
  }

  /** The switch over one notification: what it sends, what the loop remembers, and whether the turn ends. */
  method React(streamed: bool, lastItem: string, lastTotal: int, n: Notification)
    returns (streamedReasoning: bool, lastReasoningItem: string, lastTokenTotal: int, events: seq<Event>, ends: bool)
    ensures Handle(Track(streamed, lastItem, lastTotal), n)
         == Handled(Track(streamedReasoning, lastReasoningItem, lastTokenTotal), events, ends)
  {
    events, ends, streamedReasoning, lastReasoningItem, lastTokenTotal := [], false, streamed, lastItem, lastTotal;
    match n {
      case Broken(reason) =>
        events, ends := [AssistantMessage(reason)], true;
      case AgentDelta(text, item, phase) =>
        if text != "" {
          if IsReasoning(phase) {
            events := [ReasoningDelta(if streamedReasoning && item != lastReasoningItem then "\n" + text else text)];
            streamedReasoning, lastReasoningItem := true, item;
          } else {
            events := [AssistantDelta(text)];
          }
        }
      case ItemNote(activities, tools, plan) =>
        events := Activities(activities) + ToolUses(tools);
        events := events + (if plan.Some? then [PlanProposed(plan.value)] else []);
      case Completed(activities, items) =>
        events := Activities(activities);
        events := events + (if !streamedReasoning && WholeReasoning(items) != "" then [ReasoningMessage(WholeReasoning(items))] else []);
        events := events + (if FinalMessage(items) != "" then [AssistantMessage(FinalMessage(items))] else []);
        events, ends := events + [TurnDone], true;
      case ErrorNote(kind, text) =>
        var report := match kind
          case RateLimitError => RateLimited(text)
          case AuthError => AuthRequired(text)
          case OtherError => AssistantMessage(text);
        events, ends := [report, TurnDone], true;
      case RateLimits(status) =>
        if status.Some? { events := [RateStatus(status.value)]; }
      case TokenUsage(window, total, last) =>
        events := Context(window, last);
        if TotalTokens(total) > lastTokenTotal {
          lastTokenTotal := TotalTokens(total);
          events := events + (if UsageOf(last).Some? then [Billed(UsageOf(last).value)] else []);
        }
      case Other =>
    }
  }

  /**
   * The loop, with a caller whose context ends after `room` successful sends:
   * the caller sees exactly the first `room` events of the turn, what was there
   * before it started first.
   */
  method Run(first: seq<string>, notes: seq<Notification>, room: nat) returns (out: seq<Event>)
    ensures out == Cut(Firsts(first) + Stream(FRESH, notes), room)
  {
    ghost var all := Firsts(first) + Stream(FRESH, notes);
    var ok;
    out, ok := SendAll([], Firsts(first), Stream(FRESH, notes), room);
    if !ok { return; }
    var streamedReasoning := false;
    var lastReasoningItem := "";
    var lastTokenTotal := 0;
    for i := 0 to |notes|
      invariant |out| <= room
      invariant all == out + Stream(Track(streamedReasoning, lastReasoningItem, lastTokenTotal), notes[i..])
    {
      ghost var h := Handle(Track(streamedReasoning, lastReasoningItem, lastTokenTotal), notes[i]);
      ghost var rest := if h.done then [] else Stream(h.track, notes[i + 1..]);
      StreamStep(Track(streamedReasoning, lastReasoningItem, lastTokenTotal), notes, i);
      var events, ends;
      streamedReasoning, lastReasoningItem, lastTokenTotal, events, ends :=
        React(streamedReasoning, lastReasoningItem, lastTokenTotal, notes[i]);
      out, ok := SendAll(out, events, rest, room);
      if !ok || ends { return; }
    }
  }

  /** Sends events one by one until one fails because the caller's context has ended. */
  method SendAll(sent: seq<Event>, events: seq<Event>, ghost rest: seq<Event>, room: nat) returns (out: seq<Event>, ok: bool)
    requires |sent| <= room
    ensures out == Cut(sent + events, room)
    ensures ok <==> |sent| + |events| <= room
    ensures !ok ==> out == Cut(sent + (events + rest), room)
    ensures ok ==> sent + (events + rest) == out + rest
  {
    out := sent;
    for i := 0 to |events|
      invariant out == sent + events[..i] && |out| <= room
    {
      if |out| == room {
        assert sent + events == out + events[i..];
        assert sent + (events + rest) == out + (events[i..] + rest);
        return out, false;
      }
      out := out + [events[i]];
    }
    assert events[..|events|] == events;
    ok := true;
  }
}
