/** The Telegram bot's alert text: a table lookup on the exchange, then a message built by
    appending segments, some of them only when the listing has the field. */
module TelegramBot {
  import opened Wrappers
  import opened Text
  import opened Records
  import opened Delivery

  datatype AlertInfo = AlertInfo(emoji: string, impact: string, priority: string)

  /** Keyed by the exchange exactly as the listing gives it. */
  const ExchangeTable: map<string, AlertInfo> := map[
    "binance" := AlertInfo("\U{1F525}", "41% avg price increase", "HIGHEST PRIORITY"),
    "coinbase" := AlertInfo("\U{1F3DB}\U{FE0F}", "91% avg in first 5 days", "INSTITUTIONAL IMPACT"),
    "bybit" := AlertInfo("\U{26A1}", "High volume exchange", "DERIVATIVES FOCUS"),
    "kraken" := AlertInfo("\U{1F4C8}", "Regulated exchange", "EU COMPLIANT")
  ]

  const StandardInfo := AlertInfo("\U{1F4CA}", "Exchange listing", "STANDARD")

  function InfoFor(exchange: string): (info: AlertInfo)
    ensures exchange !in ExchangeTable ==> info == StandardInfo
    ensures exchange in ExchangeTable ==> info == ExchangeTable[exchange]
  {
    if exchange in ExchangeTable then ExchangeTable[exchange] else StandardInfo
  }

  /** The pieces of the message, one per `+=` of the source. */
  datatype Segment =
    | Header(emoji: string, exchange: string)
    | TokenLine(token: string)
    | NameNote(name: string)
    | ExchangeLine(exchange: string)
    | PriorityLine(priority: string)
    | DateLine(date: string)
    | PairsLine(pairs: seq<string>)
    | ImpactLine(impact: string)
    | LinkLine(url: string)
    | TimeLine(timestamp: string)

  function Render(s: Segment): string {
    match s
    case Header(emoji, exchange) => emoji + " **" + exchange + " LISTING ALERT**\n\n"
    case TokenLine(token) => "**Token**: $" + token
    case NameNote(name) => " (" + name + ")"
    case ExchangeLine(exchange) => "\n**Exchange**: " + exchange
    case PriorityLine(priority) => "\n**Priority**: " + priority
    case DateLine(date) => "\n**Listing Date**: " + date
    case PairsLine(pairs) => "\n**Trading Pairs**: " + Join(pairs, ", ")
    case ImpactLine(impact) => "\n**Expected Impact**: " + impact
    case LinkLine(url) => "\n\n[\U{1F4CB} Official Announcement](" + url + ")"
    case TimeLine(timestamp) => "\n\n\U{1F550} Alert Time: " + timestamp
  }

  function NamePart(l: Listing): seq<Segment> { if Truthy(l.name) then [NameNote(l.name.value)] else [] }
  function DatePart(l: Listing): seq<Segment> { if Truthy(l.date) then [DateLine(l.date.value)] else [] }
  function PairsPart(l: Listing): seq<Segment> { if l.pairs != [] then [PairsLine(l.pairs)] else [] }
  function LinkPart(l: Listing): seq<Segment> { if Truthy(l.url) then [LinkLine(l.url.value)] else [] }

  /** The segments of a listing's alert, in message order: the header comes first, the
      token line second and the alert time last. */
  function Segments(l: Listing): (segs: seq<Segment>)
    ensures |segs| >= 6
    ensures segs[0] == Header(InfoFor(l.exchange).emoji, Upper(l.exchange))
    ensures segs[1] == TokenLine(Upper(l.token))
    ensures segs[|segs| - 1] == TimeLine(l.timestamp.GetOr("Unknown"))
  {
    var exchange := Upper(l.exchange);
    var info := InfoFor(l.exchange);
    [Header(info.emoji, exchange), TokenLine(Upper(l.token))] + NamePart(l) +
    [ExchangeLine(exchange)] + [PriorityLine(info.priority)] + DatePart(l) + PairsPart(l) +
    [ImpactLine(info.impact)] + LinkPart(l) + [TimeLine(l.timestamp.GetOr("Unknown"))]
  }

  /** The alert text: it opens with the header and the token line and closes with the
      alert time. */
  function AlertMessage(l: Listing): (m: string)
    ensures Render(Header(InfoFor(l.exchange).emoji, Upper(l.exchange))) + Render(TokenLine(Upper(l.token))) <= m
    ensures var tail := Render(TimeLine(l.timestamp.GetOr("Unknown")));
            |tail| <= |m| && m[|m| - |tail|..] == tail
  {
    ConcatMapEnds(Segments(l), Render);
    ConcatMap(Segments(l), Render)
  }

  /** The text an optional part adds: its one segment rendered, or nothing. */
  function PartText(part: seq<Segment>): (t: string)
    requires |part| <= 1
    ensures t == ConcatMap(part, Render)
  {
    if part == [] then ""
    else
      assert part == [] + [part[0]];
      Render(part[0])
  }

  /** Rendering the segments of a listing, whatever renders each segment, is rendering
      them part by part in message order. */
  lemma SegmentsPieces(l: Listing, f: Segment -> string)
    ensures var exchange, info := Upper(l.exchange), InfoFor(l.exchange);
            ConcatMap(Segments(l), f) ==
              f(Header(info.emoji, exchange)) + f(TokenLine(Upper(l.token))) +
              ConcatMap(NamePart(l), f) +
              f(ExchangeLine(exchange)) + f(PriorityLine(info.priority)) +
              ConcatMap(DatePart(l), f) + ConcatMap(PairsPart(l), f) +
              f(ImpactLine(info.impact)) + ConcatMap(LinkPart(l), f) +
              f(TimeLine(l.timestamp.GetOr("Unknown")))
  {
    var exchange, info := Upper(l.exchange), InfoFor(l.exchange);
    var h, t := Header(info.emoji, exchange), TokenLine(Upper(l.token));
    var e, p := ExchangeLine(exchange), PriorityLine(info.priority);
    var im, tl := ImpactLine(info.impact), TimeLine(l.timestamp.GetOr("Unknown"));
    var s0 := [h, t];
    assert s0 == [] + [h] + [t];
    ConcatMapSnoc([], h, f);
    assert [h] == [] + [h];
    ConcatMapSnoc([h], t, f);
    var m0 := f(h) + f(t);
    assert ConcatMap(s0, f) == m0;
    var s1 := s0 + NamePart(l);
    ConcatMapAppend(s0, NamePart(l), f);
    var m1 := m0 + ConcatMap(NamePart(l), f);
    assert ConcatMap(s1, f) == m1;
    ConcatMapSnoc(s1, e, f);
    ConcatMapSnoc(s1 + [e], p, f);
    var s2 := s1 + [e] + [p];
    var m2 := m1 + f(e) + f(p);
    assert ConcatMap(s2, f) == m2;
    var s3 := s2 + DatePart(l);
    ConcatMapAppend(s2, DatePart(l), f);
    var m3 := m2 + ConcatMap(DatePart(l), f);
    assert ConcatMap(s3, f) == m3;
    var s4 := s3 + PairsPart(l);
    ConcatMapAppend(s3, PairsPart(l), f);
    var m4 := m3 + ConcatMap(PairsPart(l), f);
    assert ConcatMap(s4, f) == m4;
    var s5 := s4 + [im];
    ConcatMapSnoc(s4, im, f);
    var m5 := m4 + f(im);
    assert ConcatMap(s5, f) == m5;
    var s6 := s5 + LinkPart(l);
    ConcatMapAppend(s5, LinkPart(l), f);
    var m6 := m5 + ConcatMap(LinkPart(l), f);
    assert ConcatMap(s6, f) == m6;
    var s7 := s6 + [tl];
    ConcatMapSnoc(s6, tl, f);
    assert ConcatMap(s7, f) == m6 + f(tl);
    assert s7 == Segments(l);
  }

  /** `format_listing_alert`: the message grows one segment at a time. */
  method FormatListingAlert(l: Listing) returns (message: string)
    ensures message == AlertMessage(l)
  {
    var exchange := Upper(l.exchange);
    var info := InfoFor(l.exchange);
    message := Render(Header(info.emoji, exchange));
    message := message + Render(TokenLine(Upper(l.token)));
    ghost var before := message;
    if Truthy(l.name) {
      message := message + Render(NameNote(l.name.value));
    }
    assert message == before + PartText(NamePart(l));
    message := message + Render(ExchangeLine(exchange));
    message := message + Render(PriorityLine(info.priority));
    before := message;
    if Truthy(l.date) {
      message := message + Render(DateLine(l.date.value));
    }
    assert message == before + PartText(DatePart(l));
    before := message;
    if l.pairs != [] {
      message := message + Render(PairsLine(l.pairs));
    }
    assert message == before + PartText(PairsPart(l));
    message := message + Render(ImpactLine(info.impact));
    before := message;
    if Truthy(l.url) {
      message := message + Render(LinkLine(l.url.value));
    }
    assert message == before + PartText(LinkPart(l));
    message := message + Render(TimeLine(l.timestamp.GetOr("Unknown")));
    SegmentsPieces(l, Render);
  }

  /** The exchange, priority and impact lines are always there. */
  lemma FixedLinesPresent(l: Listing)
    ensures ExchangeLine(Upper(l.exchange)) in Segments(l)
    ensures PriorityLine(InfoFor(l.exchange).priority) in Segments(l)
    ensures ImpactLine(InfoFor(l.exchange).impact) in Segments(l)
  {
  }

  /** The name note is there exactly when the listing has a truthy name. */
  lemma NameNotePresent(l: Listing)
    ensures (exists n :: NameNote(n) in Segments(l)) <==> Truthy(l.name)
  {
    if Truthy(l.name) {
      assert NameNote(l.name.value) in Segments(l);
    }
  }

  /** The date line is there exactly when the listing has a truthy date, and shows it. */
  lemma DateLinePresent(l: Listing)
    ensures (exists d :: DateLine(d) in Segments(l)) <==> Truthy(l.date)
    ensures Truthy(l.date) ==> DateLine(l.date.value) in Segments(l)
  {
  }

  /** The pairs line is there exactly when the listing has pairs, and shows all of them. */
  lemma PairsLinePresent(l: Listing)
    ensures (exists p :: PairsLine(p) in Segments(l)) <==> l.pairs != []
    ensures l.pairs != [] ==> PairsLine(l.pairs) in Segments(l)
  {
  }

  /** The link is there exactly when the listing has a truthy url, and points at it. */
  lemma LinkLinePresent(l: Listing)
    ensures (exists u :: LinkLine(u) in Segments(l)) <==> Truthy(l.url)
    ensures Truthy(l.url) ==> LinkLine(l.url.value) in Segments(l)
  {
  }

  /** Rendering a sequence of at least two items starts with its first two items and
      ends with its last one. */
  lemma ConcatMapEnds<T>(s: seq<T>, f: T -> string)
    requires |s| >= 2
    ensures f(s[0]) + f(s[1]) <= ConcatMap(s, f)
    ensures var m, tail := ConcatMap(s, f), f(s[|s| - 1]);
            |tail| <= |m| && m[|m| - |tail|..] == tail
  {
    var head, rest := s[..2], s[2..];
    assert s == head + rest;
    ConcatMapAppend(head, rest, f);
    assert head == [] + [s[0]] + [s[1]];
    assert [s[0]] == [] + [s[0]];
    ConcatMapSnoc([], s[0], f);
    ConcatMapSnoc([s[0]], s[1], f);
    var init := s[..|s| - 1];
    assert s == init + [s[|s| - 1]];
    ConcatMapSnoc(init, s[|s| - 1], f);
  }

  /** The plain fallback text: the raw token, the upper-cased exchange, and the link when
      the listing has a url at all. */
  function SimpleMessage(l: Listing): (m: string)
    ensures "\U{1F525} NEW LISTING: " + l.token + " on " + Upper(l.exchange) <= m
    ensures l.url.Some? ==> |l.url.value| <= |m| && m[|m| - |l.url.value|..] == l.url.value
    ensures l.url.None? ==> |m| == |"\U{1F525} NEW LISTING: " + l.token + " on " + Upper(l.exchange)|
  {
    "\U{1F525} NEW LISTING: " + l.token + " on " + Upper(l.exchange) +
    (if l.url.Some? then "\nLink: " + l.url.value else "")
  }

  /** The sends one alert makes on a channel that fails on `failsOn`: the formatted
      text, then the plain text when the first send fails. */
  function AttemptsFor(l: Listing, failsOn: set<string>): (r: seq<string>)
    ensures 1 <= |r| <= 2 && r[0] == AlertMessage(l)
    ensures |r| == 2 <==> AlertMessage(l) in failsOn
  {
    [AlertMessage(l)] + (if AlertMessage(l) in failsOn then [SimpleMessage(l)] else [])
  }

  /** What reaches the channel: the first of the attempts it accepts, if any. */
  function DeliveredFor(l: Listing, failsOn: set<string>): (r: seq<string>)
    ensures |r| <= 1
  {
    if AlertMessage(l) !in failsOn then [AlertMessage(l)]
    else if SimpleMessage(l) !in failsOn then [SimpleMessage(l)]
    else []
  }

  /** The text delivered is one of the attempts, one the channel accepts; nothing is
      delivered only when the channel refuses every attempt. */
  lemma DeliveredForSpec(l: Listing, failsOn: set<string>)
    ensures forall m :: m in DeliveredFor(l, failsOn) ==> m in AttemptsFor(l, failsOn) && m !in failsOn
    ensures DeliveredFor(l, failsOn) == [] <==> forall m :: m in AttemptsFor(l, failsOn) ==> m in failsOn
  {
  }

  /** The asynchronous `send_listing_alert`: the formatted alert is sent; when that send
      fails, the plain text is sent instead; when that fails too, the error is re-raised,
      which `sent == false` stands for. */
  method SendListingAlert(l: Listing, sink: AlertSink<string>) returns (sent: bool)
    modifies sink
    ensures sink.attempts == old(sink.attempts) + AttemptsFor(l, sink.failsOn)
    ensures sink.delivered == old(sink.delivered) + DeliveredFor(l, sink.failsOn)
    ensures sent <==> DeliveredFor(l, sink.failsOn) != []
  {
    var message := FormatListingAlert(l);
    sent := sink.Deliver(message);
    if !sent {
      var simple := SimpleMessage(l);
      sent := sink.Deliver(simple);
    }
  }

  /** How a call of the synchronous `send_listing_alert` ends. */
  datatype Outcome = Sent | Raised

  /** The synchronous wrapper as written: it runs the asynchronous method on a new event
      loop, but that method, looking `send_listing_alert` up by name, finds the wrapper
      again, which then has to run a loop while another one is running and raises. */
  function WrapperOutcome(loopRunning: bool): (o: Outcome)
    ensures o == Raised
    decreases if loopRunning then 0 else 2
  {
    if loopRunning then Raised else AsyncOutcome()
  }

  /** `send_listing_alert_async` as written: it awaits `self.send_listing_alert`, which is
      the wrapper, from inside a running loop. */
  function AsyncOutcome(): (o: Outcome)
    ensures o == Raised
    decreases 1
  {
    WrapperOutcome(true)
  }

  /** Called from the monitor, where no loop is running, the wrapper never sends. */
  lemma WrapperNeverSends()
    ensures WrapperOutcome(false) == Raised
  {
  }
}
