/** Error values that wrap one another, and their classification for requeueing. */
module Errors {
  import opened Text

  datatype Sentinel = NotFound | AlreadyExists | ConnectionFailed | NotReady | UnsupportedEngine | TimedOut

  datatype Error =
    | Nil
    | Known(sentinel: Sentinel)
    | Validation(field: string, message: string)
    | Foreign(text: string)                                   // an error of another library
    | Verdict(text: string, retryable: bool, inner: Error)    // an error that says whether to retry
    | Wrapped(layer: Layer, inner: Error)

  /** One level of wrapping: the three wrapper types of the service, or text around %w. */
  datatype Layer =
    | Database(operation: string, resource: string)
    | Connection(host: string, port: int)
    | Timeout(operation: string, resource: string, timeout: string)
    | Format(before: string, after: string)

  // ----- Text -------------------------------------------------------------------------------------------

  function SentinelText(s: Sentinel): string {
    match s
    case NotFound => "not found"
    case AlreadyExists => "already exists"
    case ConnectionFailed => "connection failed"
    case NotReady => "not ready"
    case UnsupportedEngine => "unsupported engine"
    case TimedOut => "operation timed out"
  }

  function Decimal(n: int): string
    decreases n < 0, if n < 0 then -n else n
  {
    if n < 0 then "-" + Decimal(-n)
    else if n < 10 then [('0' as int + n) as char]
    else Decimal(n / 10) + [('0' as int + n % 10) as char]
  }

  function Before(l: Layer): string {
    match l
    case Database(op, res) => "database error during " + op + " on " + res + ": "
    case Connection(host, port) => "connection to " + host + ":" + Decimal(port) + " failed: "
    case Timeout(op, res, t) => "operation " + op + " on " + res + " timed out after " + t + ": "
    case Format(before, _) => before
  }

  function Behind(l: Layer): string {
    if l.Format? then l.after else ""
  }

  /** The message, in which every wrapper contains the message of what it wraps. */
  function Message(e: Error): string {
    match e
    case Nil => "<nil>"
    case Known(s) => SentinelText(s)
    case Validation(field, message) => "validation error for " + field + ": " + message
    case Foreign(text) => text
    case Verdict(text, _, _) => text
    case Wrapped(l, inner) => Before(l) + Message(inner) + Behind(l)
  }

  /** The messages of the service's wrappers to the letter. */
  lemma WrapperMessages(op: string, res: string, host: string, port: int, t: string, e: Error)
    ensures Message(Wrapped(Database(op, res), e)) == "database error during " + op + " on " + res + ": " + Message(e)
    ensures Message(Wrapped(Connection(host, port), e))
         == "connection to " + host + ":" + Decimal(port) + " failed: " + Message(e)
    ensures Message(Wrapped(Timeout(op, res, t), e))
         == "operation " + op + " on " + res + " timed out after " + t + ": " + Message(e)
  {
    assert forall x: string :: x + Message(e) + "" == x + Message(e);
  }

  // ----- Chain searches ------------------------------------------------------------------------------------

  /** errors.Is */
  predicate Is(e: Error, s: Sentinel) {
    e == Known(s) || match e
      case Verdict(_, _, inner) => Is(inner, s)
      case Wrapped(_, inner) => Is(inner, s)
      case _ => false
  }

  predicate IsValidation(e: Error) {
    match e
    case Validation(_, _) => true
    case Verdict(_, _, inner) => IsValidation(inner)
    case Wrapped(_, inner) => IsValidation(inner)
    case _ => false
  }

  predicate HasConnectionLayer(e: Error) {
    match e
    case Verdict(_, _, inner) => HasConnectionLayer(inner)
    case Wrapped(l, inner) => l.Connection? || HasConnectionLayer(inner)
    case _ => false
  }

  predicate HasTimeoutLayer(e: Error) {
    match e
    case Verdict(_, _, inner) => HasTimeoutLayer(inner)
    case Wrapped(l, inner) => l.Timeout? || HasTimeoutLayer(inner)
    case _ => false
  }

  /** The first error of the chain that says whether to retry. */
  function FirstVerdict(e: Error): Option<bool> {
    match e
    case Verdict(_, retryable, _) => Some(retryable)
    case Wrapped(_, inner) => FirstVerdict(inner)
    case _ => None
  }

  function TransientPatterns(): seq<string> {
    [ "connection refused", "connection reset", "no such host", "i/o timeout", "deadline exceeded",
      "temporary failure", "too many connections", "server is starting up",
      "the database system is starting up", "not currently accepting connections",
      "connection timed out", "network is unreachable", "no route to host", "broken pipe",
      "connection closed", "eof", "unavailable", "try again" ]
  }

  predicate Matches(text: string, patterns: seq<string>) {
    exists i :: 0 <= i < |patterns| && Contains(text, patterns[i])
  }

  predicate LooksTransient(e: Error) {
    Matches(ToLower(Message(e)), TransientPatterns())
  }

  predicate IsRetryable(e: Error) {
    if e == Nil then false
    else match FirstVerdict(e)
      case Some(retryable) => retryable
      case None => LooksTransient(e)
  }

  // ----- Classification --------------------------------------------------------------------------------------

  datatype Class = Transient | Connecting | Permanent

  function Classify(e: Error): Class {
    if e == Nil then Transient
    else if IsValidation(e) || Is(e, UnsupportedEngine) || Is(e, AlreadyExists) then Permanent
    else if Is(e, ConnectionFailed) || HasConnectionLayer(e) then Connecting
    else if Is(e, TimedOut) || HasTimeoutLayer(e) then Connecting
    else if IsRetryable(e) then Connecting
    else Transient
  }

  /** Seconds until the next reconcile; permanent errors are not requeued. */
  function Requeue(e: Error): Option<nat> {
    match Classify(e)
    case Permanent => None
    case Connecting => Some(60)
    case Transient => Some(30)
  }

  // ----- The class in terms of the chain ------------------------------------------------------------------------

  /** The error and what it wraps, outermost first. */
  function Chain(e: Error): seq<Error> {
    match e
    case Nil => []
    case Verdict(_, _, inner) => [e] + Chain(inner)
    case Wrapped(_, inner) => [e] + Chain(inner)
    case _ => [e]
  }

  /** Retrying cannot help. */
  predicate Hopeless(x: Error) {
    x.Validation? || x == Known(UnsupportedEngine) || x == Known(AlreadyExists)
  }

  /** The server could not be reached in time. */
  predicate Unreachable(x: Error) {
    || x == Known(ConnectionFailed) || x == Known(TimedOut)
    || (x.Wrapped? && (x.layer.Connection? || x.layer.Timeout?))
  }

  /** The outermost error of the chain with a verdict says retry, or there is none and the message matches. */
  ghost predicate SaysRetry(e: Error) {
    var chain := Chain(e);
    || (exists i :: FirstVerdictAt(chain, i) && chain[i].retryable)
    || (e != Nil && (forall x :: x in chain ==> !x.Verdict?) && LooksTransient(e))
  }

  ghost predicate FirstVerdictAt(chain: seq<Error>, i: int) {
    0 <= i < |chain| && chain[i].Verdict? && forall j :: 0 <= j < i ==> !chain[j].Verdict?
  }

  /** A foreign error is retried exactly if its text, in lower case, holds one of the patterns. */
  lemma ForeignRetriedExactly(text: string)
    ensures IsRetryable(Foreign(text)) <==> exists s :: s in TransientPatterns() && Contains(ToLower(text), s)
  {
    var ps := TransientPatterns();
    if s :| s in ps && Contains(ToLower(text), s) {
      var i :| 0 <= i < |ps| && ps[i] == s;
      assert Contains(ToLower(Message(Foreign(text))), ps[i]);
    }
  }

  /** The patterns about connections. */
  lemma ConnectionPatterns(s: string)
    requires s in {"connection refused", "connection reset", "connection timed out", "connection closed", "broken pipe",
                   "eof"}
    ensures s in TransientPatterns()
  {
    var ps := TransientPatterns();
    assert ps[0] == "connection refused" && ps[1] == "connection reset" && ps[10] == "connection timed out";
    assert ps[14] == "connection closed" && ps[13] == "broken pipe" && ps[15] == "eof";
  }

  /** The patterns about hosts and networks. */
  lemma NetworkPatterns(s: string)
    requires s in {"no such host", "i/o timeout", "deadline exceeded", "network is unreachable", "no route to host"}
    ensures s in TransientPatterns()
  {
    var ps := TransientPatterns();
    assert ps[2] == "no such host" && ps[3] == "i/o timeout" && ps[4] == "deadline exceeded";
    assert ps[11] == "network is unreachable" && ps[12] == "no route to host";
  }

  /** The patterns about servers that are not ready. */
  lemma ServerPatterns(s: string)
    requires s in {"temporary failure", "too many connections", "server is starting up",
                   "the database system is starting up", "not currently accepting connections", "unavailable",
                   "try again"}
    ensures s in TransientPatterns()
  {
    var ps := TransientPatterns();
    assert ps[5] == "temporary failure" && ps[6] == "too many connections" && ps[7] == "server is starting up";
    assert ps[8] == "the database system is starting up";
    assert ps[9] == "not currently accepting connections" && ps[16] == "unavailable" && ps[17] == "try again";
  }

  lemma {:induction false} ChainSearches(e: Error)
    ensures forall s :: Is(e, s) <==> Known(s) in Chain(e)
    ensures IsValidation(e) <==> exists x :: x in Chain(e) && x.Validation?
    ensures HasConnectionLayer(e) <==> exists x :: x in Chain(e) && x.Wrapped? && x.layer.Connection?
    ensures HasTimeoutLayer(e) <==> exists x :: x in Chain(e) && x.Wrapped? && x.layer.Timeout?
  {
    match e
    case Verdict(_, _, inner) => ChainSearches(inner);
    case Wrapped(_, inner) => ChainSearches(inner);
    case _ =>
  }

  lemma {:induction false} VerdictOfChain(e: Error)
    ensures FirstVerdict(e).None? <==> forall x :: x in Chain(e) ==> !x.Verdict?
    ensures forall i :: FirstVerdictAt(Chain(e), i) ==> FirstVerdict(e) == Some(Chain(e)[i].retryable)
    ensures FirstVerdict(e).Some? ==> exists i :: FirstVerdictAt(Chain(e), i)
  {
    match e
    case Verdict(_, _, _) =>
      assert FirstVerdictAt(Chain(e), 0);
    case Wrapped(_, inner) =>
      VerdictOfChain(inner);
      forall i ensures FirstVerdictAt(Chain(e), i) <==> FirstVerdictAt(Chain(inner), i - 1) {
        FirstVerdictBehind(e, Chain(inner), i);
      }
      if FirstVerdict(e).Some? {
        var i :| FirstVerdictAt(Chain(inner), i);
        FirstVerdictBehind(e, Chain(inner), i + 1);
      }
    case _ =>
  }

  lemma FirstVerdictBehind(x: Error, chain: seq<Error>, i: int)
    requires !x.Verdict?
    ensures FirstVerdictAt([x] + chain, i) <==> FirstVerdictAt(chain, i - 1)
  {
    if FirstVerdictAt([x] + chain, i) {
      assert forall j :: 0 <= j < |chain| ==> chain[j] == ([x] + chain)[j + 1];
    }
  }

  lemma RetryableExactly(e: Error)
    ensures IsRetryable(e) <==> SaysRetry(e)
  {
    VerdictOfChain(e);
    if FirstVerdict(e).Some? {
      var i :| FirstVerdictAt(Chain(e), i);
      assert FirstVerdict(e) == Some(Chain(e)[i].retryable);
    }
  }

  /** Which class an error has, and when it is tried again, from its chain alone. */
  lemma ClassifyExactly(e: Error)
    ensures Classify(e) == Permanent <==> exists x :: x in Chain(e) && Hopeless(x)
    ensures Classify(e) == Connecting <==>
            && (forall x :: x in Chain(e) ==> !Hopeless(x))
            && ((exists x :: x in Chain(e) && Unreachable(x)) || SaysRetry(e))
    ensures Classify(e) == Permanent ==> Requeue(e) == None
    ensures Classify(e) == Connecting ==> Requeue(e) == Some(60)
    ensures Classify(e) == Transient ==> Requeue(e) == Some(30)
  {
    ChainSearches(e);
    RetryableExactly(e);
    assert forall x :: x in Chain(e) && Hopeless(x) ==>
                         IsValidation(e) || Is(e, UnsupportedEngine) || Is(e, AlreadyExists);
    assert forall x :: x in Chain(e) && Unreachable(x) ==>
                         Is(e, ConnectionFailed) || HasConnectionLayer(e) || Is(e, TimedOut) || HasTimeoutLayer(e);
  }

  lemma ClassOfHopeless(e: Error)
    requires Hopeless(e)
    ensures Classify(e) == Permanent
  {
    ClassifyExactly(e);
    assert Chain(e)[0] == e;
  }

  lemma ClassOfUnreachable(e: Error)
    requires e == Known(ConnectionFailed) || e == Known(TimedOut)
    ensures Classify(e) == Connecting
  {
    ClassifyExactly(e);
    assert Chain(e) == [e] && Chain(e)[0] == e;
  }

  lemma ClassOfOthers(e: Error)
    requires e == Known(NotFound) || e == Known(NotReady)
    ensures Classify(e) != Permanent
  {
    ClassifyExactly(e);
    assert Chain(e) == [e];
  }

  /** Known errors at any depth of wrapping: which are never tried again, which after 60 seconds. */
  lemma KnownAtAnyDepth(layers: seq<Layer>, e: Error)
    ensures Hopeless(e) ==> Requeue(WrapAll(layers, e)) == None
    ensures e == Known(ConnectionFailed) || e == Known(TimedOut) ==> Requeue(WrapAll(layers, e)) == Some(60)
    ensures e == Known(NotFound) || e == Known(NotReady) ==> Requeue(WrapAll(layers, e)) in {Some(30), Some(60)}
  {
    WrapAny(layers, e);
    if Hopeless(e) {
      ClassOfHopeless(e);
    } else if e == Known(ConnectionFailed) || e == Known(TimedOut) {
      ClassOfUnreachable(e);
    } else if e == Known(NotFound) || e == Known(NotReady) {
      ClassOfOthers(e);
    }
  }

  // ----- Wrapping preserves the class ---------------------------------------------------------------------------

  function WrapAll(layers: seq<Layer>, e: Error): Error {
    if layers == [] then e else Wrapped(layers[0], WrapAll(layers[1..], e))
  }

  lemma ContainsWithin(before: string, s: string, behind: string, sub: string)
    requires Contains(s, sub)
    ensures Contains(before + s + behind, sub)
  {
    var i :| 0 <= i <= |s| && OccursAt(s, sub, i);
    var t := before + s + behind;
    assert t[|before| + i..|before| + i + |sub|] == s[i..i + |sub|];
    assert OccursAt(t, sub, |before| + i);
  }

  lemma LowerWithin(before: string, s: string, behind: string)
    ensures ToLower(before + s + behind) == ToLower(before) + ToLower(s) + ToLower(behind)
  {
    var t, r := before + s + behind, ToLower(before) + ToLower(s) + ToLower(behind);
    forall i | 0 <= i < |t| ensures ToLower(t)[i] == r[i] {}
  }

  /** A pattern found in a message is found in every message that contains it. */
  lemma LooksTransientWrapped(l: Layer, e: Error)
    requires LooksTransient(e)
    ensures LooksTransient(Wrapped(l, e))
  {
    var ps := TransientPatterns();
    var i :| 0 <= i < |ps| && Contains(ToLower(Message(e)), ps[i]);
    LowerWithin(Before(l), Message(e), Behind(l));
    ContainsWithin(ToLower(Before(l)), ToLower(Message(e)), ToLower(Behind(l)), ps[i]);
    assert Contains(ToLower(Message(Wrapped(l, e))), ps[i]);
  }

  /** Searching the chain of a wrapper is searching the chain of what it wraps. */
  lemma ChainOfWrapped(l: Layer, e: Error)
    ensures forall s :: Is(Wrapped(l, e), s) == Is(e, s)
    ensures IsValidation(Wrapped(l, e)) == IsValidation(e) && FirstVerdict(Wrapped(l, e)) == FirstVerdict(e)
    ensures HasConnectionLayer(Wrapped(l, e)) == (l.Connection? || HasConnectionLayer(e))
    ensures HasTimeoutLayer(Wrapped(l, e)) == (l.Timeout? || HasTimeoutLayer(e))
  {}

  lemma ChainOfNil()
    ensures !IsValidation(Nil) && !HasConnectionLayer(Nil) && !HasTimeoutLayer(Nil) && FirstVerdict(Nil) == None
    ensures forall s :: !Is(Nil, s)
  {}

  /** One layer never changes whether an error is permanent and never loses a connection error. */
  lemma WrapOnce(l: Layer, e: Error)
    ensures Classify(Wrapped(l, e)) == Permanent <==> Classify(e) == Permanent
    ensures Classify(e) == Connecting ==> Classify(Wrapped(l, e)) == Connecting
    ensures (l.Connection? || l.Timeout?) && Classify(e) != Permanent ==> Classify(Wrapped(l, e)) == Connecting
  {
    ChainOfWrapped(l, e);
    ChainOfNil();
    if e != Nil && FirstVerdict(e) == None && LooksTransient(e) {
      LooksTransientWrapped(l, e);
    }
  }

  /** The same for any depth of wrapping. */
  lemma {:induction false} WrapAny(layers: seq<Layer>, e: Error)
    ensures Classify(WrapAll(layers, e)) == Permanent <==> Classify(e) == Permanent
    ensures Classify(e) == Connecting ==> Classify(WrapAll(layers, e)) == Connecting
    ensures Requeue(WrapAll(layers, e)).None? <==> Requeue(e).None?
  {
    if layers == [] {
    } else {
      WrapAny(layers[1..], e);
      WrapOnce(layers[0], WrapAll(layers[1..], e));
    }
  }

  /** The text of a wrapper can only raise the class, and exactly when it completes a pattern. */
  lemma WrapChangesExactly(l: Layer, e: Error)
    requires l.Database? || l.Format?
    ensures Classify(Wrapped(l, e)) != Classify(e) <==>
            Classify(e) == Transient && FirstVerdict(e) == None && LooksTransient(Wrapped(l, e))
    ensures Classify(Wrapped(l, e)) != Classify(e) ==> Classify(Wrapped(l, e)) == Connecting
  {
    WrapOnce(l, e);
    ChainOfWrapped(l, e);
    ChainOfNil();
  }

  lemma PatternsNonEmpty(i: nat)
    requires i < |TransientPatterns()|
    ensures |TransientPatterns()[i]| > 0
  {}

  lemma EofIsAPattern()
    ensures |TransientPatterns()| == 18 && TransientPatterns()[15] == "eof"
  {}

  lemma EmptyLooksPermanent()
    ensures !LooksTransient(Foreign(""))
  {
    forall i | 0 <= i < |TransientPatterns()| ensures !Contains(ToLower(""), TransientPatterns()[i]) {
      PatternsNonEmpty(i);
    }
  }

  lemma EofOccurs(t: string, i: nat)
    requires i + 3 <= |t| && t[i] == 'e' && t[i + 1] == 'o' && t[i + 2] == 'f'
    ensures OccursAt(t, "eof", i)
  {}

  lemma LowerKeeps(s: string, i: nat)
    requires i < |s| && 'a' <= s[i] <= 'z'
    ensures ToLower(s)[i] == s[i]
  {}

  lemma MatchesPattern(t: string, patterns: seq<string>, j: nat, i: nat)
    requires j < |patterns| && OccursAt(t, patterns[j], i)
    ensures Matches(t, patterns)
  {
    assert Contains(t, patterns[j]);
  }

  lemma EofInside(s: string, i: nat)
    requires i + 3 <= |s| && s[i] == 'e' && s[i + 1] == 'o' && s[i + 2] == 'f'
    ensures Matches(ToLower(s), TransientPatterns())
  {
    LowerKeeps(s, i);
    LowerKeeps(s, i + 1);
    LowerKeeps(s, i + 2);
    EofOccurs(ToLower(s), i);
    EofIsAPattern();
    MatchesPattern(ToLower(s), TransientPatterns(), 15, i);
  }

  /** It does happen: a resource name is enough. */
  lemma ResourceNameRaisesClass()
    ensures Classify(Foreign("")) == Transient
    ensures Classify(Wrapped(Database("", "geofence"), Foreign(""))) == Connecting
  {
    EmptyLooksPermanent();
    var m := Message(Wrapped(Database("", "geofence"), Foreign("")));
    assert m[26..34] == "geofence";
    EofInside(m, 27);
  }
}
