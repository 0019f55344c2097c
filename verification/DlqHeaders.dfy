/** Reading and stamping the headers of a dead-lettered message, and the delivery-limit rules of quorum queues. */
module DlqHeaders {
  import opened Common

  datatype Float = Finite(r: real) | Infinite | NotANumber

  /** A header value as the AMQP decoder delivers it. `Bytes` holds the text its bytes decode to. */
  datatype Value =
    | Text(s: string)
    | Bytes(decoded: string)
    | Int(i: int)
    | Bool(b: bool)
    | Double(f: Float)
    | Decimal(d: real)
    | List(elems: seq<Value>)
    | Table(fields: map<string, Value>)
    | Void
    | Other

  type Headers = map<string, Value>

  const RETRY_COUNT := "x-rabbitkit-retry-count"
  const PREVIOUS_RETRY_COUNT := "x-rabbitkit-previous-retry-count"
  const ORIGINAL_QUEUE := "x-rabbitkit-original-queue"
  const ORIGINAL_ROUTING_KEY := "x-rabbitkit-original-routing-key"
  const LAST_DEATH_QUEUE := "x-last-death-queue"
  const DEATH := "x-death"
  const REPLAY_COUNT := "x-rabbitkit-replay-count"
  const REPLAYED_AT := "x-rabbitkit-replayed-at"
  const REPLAYED_BY := "x-rabbitkit-replayed-by"
  const DELIVERY_COUNT := "x-delivery-count"
  const RESET_STRIP := {
    DEATH, "x-first-death-exchange", "x-first-death-queue", "x-first-death-reason",
    "x-last-death-exchange", LAST_DEATH_QUEUE, "x-last-death-reason", "x-rabbitkit-first-failed-at"
  }

  function Get(h: Headers, key: string): Option<Value> { if key in h then Some(h[key]) else None }

  /** A non-empty text, else nothing. */
  function HeaderStr(v: Option<Value>): Option<string> {
    match v
    case Some(Text(s)) => if s == "" then None else Some(s)
    case Some(Bytes(s)) => if s == "" then None else Some(s)
    case _ => None
  }

  /** The newest entry of the broker's death history. */
  function NewestDeath(h: Headers): Option<Headers> {
    match Get(h, DEATH)
    case Some(List(deaths)) => if |deaths| > 0 && deaths[0].Table? then Some(deaths[0].fields) else None
    case _ => None
  }

  function OriginalQueue(h: Headers): Option<string> {
    if HeaderStr(Get(h, ORIGINAL_QUEUE)).Some? then HeaderStr(Get(h, ORIGINAL_QUEUE))
    else if HeaderStr(Get(h, LAST_DEATH_QUEUE)).Some? then HeaderStr(Get(h, LAST_DEATH_QUEUE))
    else match NewestDeath(h)
         case Some(death) => HeaderStr(Get(death, "queue"))
         case None => None
  }

  function OriginalRoutingKey(h: Headers): Option<string> {
    if HeaderStr(Get(h, ORIGINAL_ROUTING_KEY)).Some? then HeaderStr(Get(h, ORIGINAL_ROUTING_KEY))
    else match NewestDeath(h)
         case Some(death) => (
           match Get(death, "routing-keys")
           case Some(List(keys)) => if |keys| > 0 then HeaderStr(Some(keys[0])) else None
           case _ => None)
         case None => None
  }

  function Or(found: Option<string>, fallback: string): string {
    match found case Some(s) => s case None => fallback
  }

  function ResolveRoutingKey(h: Headers, fallback: string, exchange: string, explicit: Option<string>): string {
    if explicit.Some? && explicit.value != "" then explicit.value
    else if exchange != "" then Or(OriginalRoutingKey(h), fallback)
    else Or(OriginalQueue(h), fallback)
  }

  // ---------------------------------------------------------------- where a message came from

  /** The header holds this text. */
  predicate Says(h: Headers, key: string, s: string) {
    key in h && h[key] in {Text(s), Bytes(s)} && s != ""
  }

  ghost predicate Silent(h: Headers, key: string) { forall s :: !Says(h, key, s) }

  /** The broker keeps a death history, newest first. */
  predicate Died(h: Headers) {
    "x-death" in h && h["x-death"].List? && |h["x-death"].elems| > 0 && h["x-death"].elems[0].Table?
  }

  /** rabbitkit's own header names the queue that failed; without it the broker's; without that the newest death. */
  ghost predicate NamesQueue(h: Headers, queue: string) {
    || Says(h, "x-rabbitkit-original-queue", queue)
    || (&& Silent(h, "x-rabbitkit-original-queue")
        && (|| Says(h, "x-last-death-queue", queue)
            || (Silent(h, "x-last-death-queue") && Died(h) && Says(h["x-death"].elems[0].fields, "queue", queue))))
  }

  /** ... and likewise the key: rabbitkit's header, then the first key of the newest death. */
  ghost predicate NamesKey(h: Headers, key: string) {
    || Says(h, "x-rabbitkit-original-routing-key", key)
    || (&& Silent(h, "x-rabbitkit-original-routing-key") && Died(h)
        && var death := h["x-death"].elems[0].fields;
           && "routing-keys" in death && death["routing-keys"].List? && |death["routing-keys"].elems| > 0
           && death["routing-keys"].elems[0] in {Text(key), Bytes(key)} && key != "")
  }

  lemma HeaderSays(h: Headers, key: string)
    ensures forall s :: HeaderStr(Get(h, key)) == Some(s) <==> Says(h, key, s)
    ensures HeaderStr(Get(h, key)) == None <==> Silent(h, key)
  {
    if HeaderStr(Get(h, key)).Some? { assert Says(h, key, HeaderStr(Get(h, key)).value); }
  }

  lemma OriginalQueueIff(h: Headers, queue: string)
    ensures OriginalQueue(h) == Some(queue) <==> NamesQueue(h, queue)
  {
    HeaderSays(h, ORIGINAL_QUEUE);
    HeaderSays(h, LAST_DEATH_QUEUE);
    if Died(h) { HeaderSays(h[DEATH].elems[0].fields, "queue"); }
  }

  lemma OriginalRoutingKeyIff(h: Headers, key: string)
    ensures OriginalRoutingKey(h) == Some(key) <==> NamesKey(h, key)
  {
    HeaderSays(h, ORIGINAL_ROUTING_KEY);
  }

  /** An explicit target wins; through the default exchange a message goes to the queue that failed, through a named
      one with the key it was first published with; and without any such header it keeps the key it has. */
  lemma GoesTo(h: Headers, fallback: string, exchange: string, explicit: Option<string>)
    ensures var key := ResolveRoutingKey(h, fallback, exchange, explicit);
            if explicit !in {None, Some("")} then Some(key) == explicit
            else if exchange == "" then
              if exists q :: NamesQueue(h, q) then NamesQueue(h, key) else key == fallback
            else
              if exists k :: NamesKey(h, k) then NamesKey(h, key) else key == fallback
  {
    forall q ensures OriginalQueue(h) == Some(q) <==> NamesQueue(h, q) { OriginalQueueIff(h, q); }
    forall k ensures OriginalRoutingKey(h) == Some(k) <==> NamesKey(h, k) { OriginalRoutingKeyIff(h, k); }
  }

  // ---------------------------------------------------------------- the replay count

  predicate IsDigit(c: char) { '0' <= c <= '9' }

  /** Digits with single underscores between them, read from the right. */
  function Digits(s: string): Option<nat> {
    if s == "" then None
    else
      var n := |s| - 1;
      if !IsDigit(s[n]) then None
      else
        var d := s[n] as int - '0' as int;
        if n == 0 then Some(d)
        else
          var rest := if s[n - 1] == '_' then s[..n - 1] else s[..n];
          match Digits(rest)
          case Some(v) => Some(10 * v + d)
          case None => None
  }

  predicate IsSpace(c: char) { c in " \t\n\r" }

  function Strip(s: string): string {
    if s != "" && IsSpace(s[0]) then Strip(s[1..])
    else if s != "" && IsSpace(s[|s| - 1]) then Strip(s[..|s| - 1])
    else s
  }

  /** Conversion to an integer: a value, a malformed text, or an infinite float, which overflows. */
  datatype Conversion = Number(i: int) | Malformed | Overflow

  function ParseText(s: string): Conversion {
    var t := Strip(s);
    var negative := t != "" && t[0] == '-';
    var body := if t != "" && (t[0] == '-' || t[0] == '+') then t[1..] else t;
    match Digits(body)
    case Some(v) => var i: int := v; Number(if negative then -i else i)
    case None => Malformed
  }

  function Truncate(r: real): int { if r >= 0.0 then r.Floor else -((-r).Floor) }

  function ToInt(v: Value): Conversion {
    match v
    case Int(i) => Number(i)
    case Bool(b) => Number(if b then 1 else 0)
    case Text(s) => ParseText(s)
    case Bytes(s) => ParseText(s)
    case Double(Finite(r)) => Number(Truncate(r))
    case Decimal(r) => Number(Truncate(r))
    case Double(Infinite) => Overflow
    case Double(NotANumber) => Malformed
    case _ => Malformed
  }

  function NonNegative(i: int): nat { if i < 0 then 0 else i }

  /** How often a message was replayed; nothing when the conversion overflows, which raises. */
  function ReplayCount(h: Headers): Option<nat> {
    match Get(h, REPLAY_COUNT)
    case None => Some(0)
    case Some(Bool(_)) => Some(0)
    case Some(v) => (
      match ToInt(v)
      case Number(i) => Some(NonNegative(i))
      case Malformed => Some(0)
      case Overflow => None)
  }

  /** A malformed count reads as zero, except an infinite float: converting that raises. */
  lemma CountRaisesIff(h: Headers)
    ensures ReplayCount(h) == None <==> Get(h, REPLAY_COUNT) == Some(Double(Infinite))
  {
  }

  // ---------------------------------------------------------------- what counts as a number

  /** Digits, with single underscores between them. */
  predicate Numeral(s: string) {
    && s != "" && IsDigit(s[0]) && IsDigit(s[|s| - 1])
    && (forall i :: 0 <= i < |s| ==> IsDigit(s[i]) || s[i] == '_')
    && (forall i :: 0 < i < |s| ==> IsDigit(s[i - 1]) || IsDigit(s[i]))
  }

  lemma {:induction false} DigitsIff(s: string)
    ensures Digits(s).Some? <==> Numeral(s)
  {
    if |s| >= 2 {
      var n := |s| - 1;
      var rest := if s[n - 1] == '_' then s[..n - 1] else s[..n];
      DigitsIff(rest);
      if Numeral(rest) && IsDigit(s[n]) {
        forall i | 0 <= i < |s| ensures IsDigit(s[i]) || s[i] == '_' { assert i < |rest| ==> s[i] == rest[i]; }
        forall i | 0 < i < |s| ensures IsDigit(s[i - 1]) || IsDigit(s[i]) {
          assert i < |rest| ==> s[i] == rest[i] && s[i - 1] == rest[i - 1];
          assert i == |rest| ==> s[i - 1] == rest[|rest| - 1];
        }
      } else if Numeral(s) {
        NumeralFront(s, n, rest);
      }
    }
  }

  lemma NumeralFront(s: string, n: nat, rest: string)
    requires Numeral(s) && n == |s| - 1 >= 1 && rest == if s[n - 1] == '_' then s[..n - 1] else s[..n]
    ensures Numeral(rest)
  {
    var k := |rest|;
    assert s[n - 1] == '_' ==> n >= 2;
    assert forall i :: 0 <= i < k ==> rest[i] == s[i];
    assert s[n - 1] == '_' ==> IsDigit(s[n - 2]);
  }

  /** One more digit, after an underscore or not. */
  function Longer(v: Option<nat>, c: char): Option<nat>
    requires IsDigit(c)
  {
    match v case Some(n) => Some(10 * n + (c as int - '0' as int)) case None => None
  }

  lemma {:induction false} DigitsLonger(s: string, c: char)
    requires s != "" && IsDigit(c) && s[|s| - 1] != '_'
    ensures Digits(s + [c]) == Longer(Digits(s), c)
  {
    assert (s + [c])[..|s|] == s;
  }

  lemma {:induction false} DigitsSpaced(s: string, c: char)
    requires s != "" && IsDigit(c)
    ensures Digits(s + ['_', c]) == Longer(Digits(s), c)
  {
    assert (s + ['_', c])[..|s|] == s;
  }

  lemma {:induction false} DigitsAlike(x: string, y: string, c: char)
    requires x != "" && y != "" && x[|x| - 1] != '_' && y[|y| - 1] != '_' && IsDigit(c) && Digits(x) == Digits(y)
    ensures Digits(x + [c]) == Digits(y + [c]) && Digits(x + ['_', c]) == Digits(y + ['_', c])
  {
    DigitsLonger(x, c);
    DigitsLonger(y, c);
    DigitsSpaced(x, c);
    DigitsSpaced(y, c);
  }

  lemma {:induction false} UnderscoreFirst(a: string, b: string)
    requires Numeral(a) && |b| == 1 && IsDigit(b[0])
    ensures Digits(a + "_" + b) == Digits(a + b)
  {
    DigitsLonger(a, b[0]);
    DigitsSpaced(a, b[0]);
    assert a + "_" + b == a + ['_', b[0]];
    assert a + b == a + [b[0]];
  }

  lemma {:induction false} UnderscoreLonger(a: string, rest: string, c: char)
    requires Numeral(rest) && IsDigit(c) && Digits(a + "_" + rest) == Digits(a + rest)
    ensures Digits(a + "_" + (rest + [c])) == Digits(a + (rest + [c]))
  {
    DigitsAlike(a + "_" + rest, a + rest, c);
    assert a + "_" + (rest + [c]) == (a + "_" + rest) + [c];
    assert a + (rest + [c]) == (a + rest) + [c];
  }

  lemma {:induction false} UnderscoreSpaced(a: string, rest: string, c: char)
    requires Numeral(rest) && IsDigit(c) && Digits(a + "_" + rest) == Digits(a + rest)
    ensures Digits(a + "_" + (rest + ['_', c])) == Digits(a + (rest + ['_', c]))
  {
    DigitsAlike(a + "_" + rest, a + rest, c);
    assert a + "_" + (rest + ['_', c]) == (a + "_" + rest) + ['_', c];
    assert a + (rest + ['_', c]) == (a + rest) + ['_', c];
  }

  /** An underscore between two numerals changes nothing. */
  lemma {:induction false} UnderscoresAreIgnored(a: string, b: string)
    requires Numeral(a) && Numeral(b)
    ensures Digits(a + "_" + b) == Digits(a + b)
    decreases |b|
  {
    var n := |b| - 1;
    if n == 0 {
      UnderscoreFirst(a, b);
    } else if b[n - 1] == '_' {
      NumeralFront(b, n, b[..n - 1]);
      UnderscoresAreIgnored(a, b[..n - 1]);
      UnderscoreSpaced(a, b[..n - 1], b[n]);
      assert b == b[..n - 1] + ['_', b[n]];
    } else {
      NumeralFront(b, n, b[..n]);
      UnderscoresAreIgnored(a, b[..n]);
      UnderscoreLonger(a, b[..n], b[n]);
      assert b == b[..n] + [b[n]];
    }
  }

  function Render(n: nat): string {
    var last := ('0' as int + n % 10) as char;
    if n < 10 then [last] else Render(n / 10) + [last]
  }

  lemma {:induction false} DigitsRender(n: nat)
    ensures Digits(Render(n)) == Some(n) && forall i :: 0 <= i < |Render(n)| ==> IsDigit(Render(n)[i])
  {
    if n >= 10 {
      DigitsRender(n / 10);
      var s := Render(n);
      assert s[..|s| - 1] == Render(n / 10);
    }
  }

  lemma {:induction false} StripIs(before: string, s: string, after: string)
    requires s != "" && !IsSpace(s[0]) && !IsSpace(s[|s| - 1])
    requires (forall c :: c in before ==> IsSpace(c)) && forall c :: c in after ==> IsSpace(c)
    ensures Strip(before + s + after) == s
    decreases |before| + |after|
  {
    var all := before + s + after;
    if before != [] {
      assert all[0] == before[0] && all[1..] == before[1..] + s + after;
      StripIs(before[1..], s, after);
    } else if after != [] {
      assert all[0] == s[0] && all[|all| - 1] == after[|after| - 1];
      assert all[..|all| - 1] == before + s + after[..|after| - 1];
      StripIs(before, s, after[..|after| - 1]);
    } else {
      assert all == s;
    }
  }

  lemma WrittenIsParsed(before: string, sign: string, n: nat, after: string)
    requires sign in ["", "+", "-"]
    requires (forall c :: c in before ==> IsSpace(c)) && forall c :: c in after ==> IsSpace(c)
    ensures ParseText(before + (sign + Render(n)) + after) == Number(if sign == "-" then -(n as int) else n)
  {
    var digits := Render(n);
    var body := sign + digits;
    DigitsRender(n);
    assert digits[0] == body[|sign|] && digits[|digits| - 1] == body[|body| - 1];
    StripIs(before, body, after);
    if sign == "" { assert body == digits; } else { assert body[1..] == digits; }
  }

  /** A count written out as a decimal number, in text or in bytes, with or without a sign and spaces around it, is read
      back; below zero it reads as zero. */
  lemma WrittenCountIsRead(h: Headers, before: string, sign: string, n: nat, after: string)
    requires sign in ["", "+", "-"]
    requires (forall c :: c in before ==> IsSpace(c)) && forall c :: c in after ==> IsSpace(c)
    requires var s := before + (sign + Render(n)) + after; Get(h, REPLAY_COUNT) in [Some(Text(s)), Some(Bytes(s))]
    ensures ReplayCount(h) == Some(if sign == "-" then 0 else n)
  {
    WrittenIsParsed(before, sign, n, after);
  }

  /** Numbers lose their fraction and everything below zero; nothing else is a count. */
  lemma OtherCountsAreRead(h: Headers)
    ensures match Get(h, REPLAY_COUNT)
            case Some(Int(i)) => ReplayCount(h) == Some(if i < 0 then 0 else i)
            case Some(Double(Finite(r))) => Floors(ReplayCount(h), r)
            case Some(Decimal(r)) => Floors(ReplayCount(h), r)
            case Some(Double(Infinite)) => ReplayCount(h) == None
            case Some(Text(s)) => Unreadable(s) ==> ReplayCount(h) == Some(0)
            case Some(Bytes(s)) => Unreadable(s) ==> ReplayCount(h) == Some(0)
            case _ => ReplayCount(h) == Some(0)
  {
    match Get(h, REPLAY_COUNT)
    case Some(Text(s)) => MalformedIff(s);
    case Some(Bytes(s)) => MalformedIff(s);
    case _ =>
  }

  predicate Floors(count: Option<nat>, r: real) {
    count.Some? && if r < 0.0 then count.value == 0 else count.value as real <= r < (count.value + 1) as real
  }

  /** What is left of a text without the spaces around it and a sign is no numeral. */
  predicate Unreadable(s: string) {
    var t := Strip(s);
    !Numeral(t) && !(t != "" && t[0] in "+-" && Numeral(t[1..]))
  }

  lemma MalformedIff(s: string)
    ensures ParseText(s) == Malformed <==> Unreadable(s)
  {
    var t := Strip(s);
    DigitsIff(t);
    if t != "" { DigitsIff(t[1..]); }
  }

  function ResetRetry(h: Headers): Headers {
    var kept := h - {RETRY_COUNT};
    var moved :=
      if RETRY_COUNT in h && h[RETRY_COUNT] != Void then kept[PREVIOUS_RETRY_COUNT := h[RETRY_COUNT]] else kept;
    moved - RESET_STRIP
  }

  function PrepareReplayHeaders(h: Headers, reset: bool, actor: string, now: string): Option<Headers> {
    match ReplayCount(h)
    case None => None
    case Some(n) =>
      var out := if reset then ResetRetry(h) else h;
      Some(out[REPLAY_COUNT := Int(n + 1)][REPLAYED_AT := Text(now)][REPLAYED_BY := Text(actor)])
  }

  const STAMPED := {REPLAY_COUNT, REPLAYED_AT, REPLAYED_BY}

  /** Stamping adds exactly one replay, whatever the header held. */
  lemma StampCountsUp(h: Headers, reset: bool, actor: string, now: string)
    ensures PrepareReplayHeaders(h, reset, actor, now).Some? <==> ReplayCount(h).Some?
    ensures ReplayCount(h).Some? ==>
              ReplayCount(PrepareReplayHeaders(h, reset, actor, now).value) == Some(ReplayCount(h).value + 1)
  {
    assert REPLAY_COUNT != REPLAYED_AT && REPLAY_COUNT != REPLAYED_BY;
  }

  /** It touches no other header; a reset also takes away everything the retry budget is derived from, and keeps the old
      count under another name. */
  lemma StampTouchesNothingElse(h: Headers, reset: bool, actor: string, now: string)
    requires ReplayCount(h).Some?
    ensures var out := PrepareReplayHeaders(h, reset, actor, now).value;
            && (forall k :: k in out && k !in STAMPED && !(reset && k == PREVIOUS_RETRY_COUNT) ==>
                k in h && out[k] == h[k])
            && (forall k :: k in h && k !in STAMPED ==>
                  (reset ==> k !in RESET_STRIP + {RETRY_COUNT, PREVIOUS_RETRY_COUNT}) ==> k in out)
            && Get(out, REPLAYED_AT) == Some(Text(now)) && Get(out, REPLAYED_BY) == Some(Text(actor))
            && (reset ==> out.Keys !! RESET_STRIP + {RETRY_COUNT})
            && Get(out, PREVIOUS_RETRY_COUNT) ==
               (if reset && RETRY_COUNT in h && h[RETRY_COUNT] != Void then Some(h[RETRY_COUNT])
                else Get(h, PREVIOUS_RETRY_COUNT))
  {
    DifferentNames();
  }

  /** The stamps, the retry count and its archive, and the headers a reset strips are all different. */
  lemma DifferentNames()
    ensures STAMPED + {PREVIOUS_RETRY_COUNT} !! RESET_STRIP + {RETRY_COUNT} && PREVIOUS_RETRY_COUNT !in STAMPED
  {
    assert |RETRY_COUNT| == 23 && |PREVIOUS_RETRY_COUNT| == 32 && |REPLAY_COUNT| == 24 && |REPLAYED_AT| == 23
           && |REPLAYED_BY| == 23;
    assert RETRY_COUNT[12] == 'r' && RETRY_COUNT[14] == 't' && REPLAYED_AT[14] == 'p' && REPLAYED_BY[14] == 'p';
  }

  // ---------------------------------------------------------------- quorum queues

  /** What the management API reports about a queue. */
  datatype QueueInfo = QueueInfo(quorum: bool, ready: nat, hasStats: bool, argLimit: Option<int>,
                                 policyLimit: Option<int>)

  function Configured(info: QueueInfo): seq<int> {
    (if info.argLimit.Some? then [info.argLimit.value] else []) +
    (if info.policyLimit.Some? then [info.policyLimit.value] else [])
  }

  function Least(limits: seq<int>): int
    requires |limits| > 0
  {
    if |limits| == 1 || limits[0] <= Least(limits[1..]) then limits[0] else Least(limits[1..])
  }

  function Bounding(limits: seq<int>): seq<int> {
    if limits == [] then [] else (if limits[0] >= 0 then [limits[0]] else []) + Bounding(limits[1..])
  }

  const DEFAULT_DELIVERY_LIMIT_4X := 20

  function EffectiveDeliveryLimit(info: QueueInfo, major: Option<nat>): Option<int> {
    if !info.quorum then None
    else
      var values := Configured(info);
      if major.Some? && major.value < 4 then
        if values == [] then None else Some(NonNegative(Least(values)))
      else if Bounding(values) != [] then Some(Least(Bounding(values)))
      else if values != [] then None
      else Some(DEFAULT_DELIVERY_LIMIT_4X)
  }

  /** The broker's rule: does a message that has been returned `count` times outlive one more return?
      From version 4 on, -1 is no limit and an unconfigured quorum queue has 20; before, every configured value
      is a limit and there is no default. */
  predicate SurvivesReturn(info: QueueInfo, major: nat, count: nat) {
    info.quorum ==>
      && (forall v :: v in Configured(info) && (major < 4 || v >= 0) ==> count < v)
      && (major >= 4 && Configured(info) == [] ==> count < DEFAULT_DELIVERY_LIMIT_4X)
  }

  lemma {:induction false} LeastIsLeast(limits: seq<int>)
    requires |limits| > 0
    ensures Least(limits) in limits && forall v :: v in limits ==> Least(limits) <= v
  {
    if |limits| > 1 { LeastIsLeast(limits[1..]); }
    assert forall v :: v in limits ==> v == limits[0] || v in limits[1..];
  }

  lemma {:induction false} BoundingIs(limits: seq<int>)
    ensures forall v :: v in Bounding(limits) <==> v in limits && v >= 0
  {
    if limits != [] {
      BoundingIs(limits[1..]);
      assert forall v :: v in limits <==> v == limits[0] || v in limits[1..];
    }
  }

  /** The computed limit is exactly the broker's: a message survives one more return if and only if its count is
      below it, and every count survives if and only if there is none. */
  lemma LimitIsExact(info: QueueInfo, major: nat, count: nat)
    ensures match EffectiveDeliveryLimit(info, Some(major))
            case None => SurvivesReturn(info, major, count)
            case Some(limit) => SurvivesReturn(info, major, count) <==> count < limit
  {
    var values := Configured(info);
    BoundingIs(values);
    if values != [] { LeastIsLeast(values); }
    if Bounding(values) != [] { LeastIsLeast(Bounding(values)); } else { assert forall v :: v in values ==> v < 0; }
  }
}
