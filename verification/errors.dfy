/** The error taxonomy of pkg/zendesk/error.go.

    Go errors compose: `fmt.Errorf("context: %w", e)` wraps one error and
    `errors.Join(a, b, ...)` bundles several, and `errors.Is(err, target)`
    searches the resulting tree for `target`. The model makes that tree an
    inductive datatype; the two sentinels `ErrNotFound` and `ErrUnexpected`
    become the `Sentinel` leaves, compared by kind instead of by pointer. */
module Errors {
  import opened Results
  import opened Strings
  import opened HttpStatus

  /** The two sentinel errors a caller can test for. */
  datatype Kind = NotFound | Unexpected

  datatype Err =
    | Sentinel(kind: Kind)             // ErrNotFound or ErrUnexpected itself
    | Opaque(msg: string)              // errors.New, or fmt.Errorf without %w
    | Wrap(context: string, inner: Err)  // fmt.Errorf("<context>: %w", inner)
    | Join(errs: seq<Err>)             // errors.Join(errs...)

  const ErrNotFound: Err := Sentinel(NotFound)
  const ErrUnexpected: Err := Sentinel(Unexpected)

  /** The message each sentinel was created with; the two differ. */
  function SentinelText(k: Kind): (r: string)
    ensures r == "unexpected error" <==> k == Unexpected
  {
    match k
    case NotFound => "not found error"
    case Unexpected => "unexpected error"
  }

  /** What `Error()` returns: a wrapper prints its context, ": " and the wrapped
      text; a join prints its members' texts separated by newlines. */
  function Text(e: Err): string
    decreases e
  {
    match e
    case Sentinel(k) => SentinelText(k)
    case Opaque(msg) => msg
    case Wrap(context, inner) => context + ": " + Text(inner)
    case Join(es) => Lines(es)
  }

  function Lines(es: seq<Err>): string
    decreases es
  {
    if |es| == 0 then ""
    else if |es| == 1 then Text(es[0])
    else Text(es[0]) + "\n" + Lines(es[1..])
  }

  /** `errors.Is(e, Sentinel(k))`: the wrapper is unwrapped, and a join's
      members are searched one after another. */
  predicate Contains(e: Err, k: Kind)
    decreases e
  {
    match e
    case Sentinel(k') => k' == k
    case Opaque(_) => false
    case Wrap(_, inner) => Contains(inner, k)
    case Join(es) => ContainsAny(es, k)
  }

  predicate ContainsAny(es: seq<Err>, k: Kind)
    decreases es
  {
    |es| > 0 && (Contains(es[0], k) || ContainsAny(es[1..], k))
  }

  /** The error carries at least one of the two classifications. */
  predicate Classified(e: Err)
  {
    Contains(e, NotFound) || Contains(e, Unexpected)
  }

  /** A join contains a kind exactly when one of its members does. */
  lemma {:induction false} ContainsAnyExists(es: seq<Err>, k: Kind)
    ensures ContainsAny(es, k) <==> exists i :: 0 <= i < |es| && Contains(es[i], k)
    decreases es
  {
    if |es| > 0 {
      ContainsAnyExists(es[1..], k);
      if ContainsAny(es[1..], k) {
        var i :| 0 <= i < |es[1..]| && Contains(es[1..][i], k);
        assert Contains(es[i + 1], k);
      }
      forall i | 1 <= i < |es| && Contains(es[i], k)
        ensures ContainsAny(es[1..], k)
      {
        assert es[1..][i - 1] == es[i];
      }
    }
  }

  /** The two-member join that error.go:25 and account.go:29-72 build. */
  lemma JoinOfTwo(a: Err, b: Err)
    ensures forall k :: Contains(Join([a, b]), k) <==> Contains(a, k) || Contains(b, k)
    ensures Text(Join([a, b])) == Text(a) + "\n" + Text(b)
  {
    assert [a, b][1..] == [b];
    assert [b][1..] == [];
    assert Lines([a, b]) == Text(a) + "\n" + Lines([b]);
    forall k
      ensures Contains(Join([a, b]), k) <==> Contains(a, k) || Contains(b, k)
    {
      assert ContainsAny([a, b], k) == (Contains(a, k) || ContainsAny([b], k));
      assert ContainsAny([b], k) == (Contains(b, k) || ContainsAny([], k));
    }
  }

  // ---------------------------------------------------------------------
  // The error tree as errors.Is documents it: the tree of `err` holds `err`
  // itself and every error reached by repeatedly unwrapping. A path picks,
  // at each step, index 0 of a wrapper or index i of a join.

  function Subtree(e: Err, path: seq<nat>): Option<Err>
    decreases |path|
  {
    if |path| == 0 then Some(e)
    else match e
      case Wrap(_, inner) => if path[0] == 0 then Subtree(inner, path[1..]) else None
      case Join(es) => if path[0] < |es| then Subtree(es[path[0]], path[1..]) else None
      case _ => None
  }

  ghost predicate InTree(d: Err, e: Err)
  {
    exists path :: Subtree(e, path) == Some(d)
  }

  /** `Contains` is exactly "the sentinel occurs in the error tree". */
  lemma {:induction false} ContainsIffInTree(e: Err, k: Kind)
    ensures Contains(e, k) <==> InTree(Sentinel(k), e)
    decreases e
  {
    if Contains(e, k) {
      ContainsHasPath(e, k);
    }
    if InTree(Sentinel(k), e) {
      var path :| Subtree(e, path) == Some(Sentinel(k));
      PathContains(e, k, path);
    }
  }

  lemma {:induction false} ContainsHasPath(e: Err, k: Kind)
    requires Contains(e, k)
    ensures InTree(Sentinel(k), e)
    decreases e
  {
    match e
    case Sentinel(_) =>
      assert Subtree(e, []) == Some(Sentinel(k));
    case Wrap(_, inner) =>
      ContainsHasPath(inner, k);
      var p :| Subtree(inner, p) == Some(Sentinel(k));
      assert ([0] + p)[1..] == p;
      assert Subtree(e, [0] + p) == Some(Sentinel(k));
    case Join(es) =>
      ContainsAnyExists(es, k);
      var i :| 0 <= i < |es| && Contains(es[i], k);
      ContainsHasPath(es[i], k);
      var p :| Subtree(es[i], p) == Some(Sentinel(k));
      assert ([i] + p)[1..] == p;
      assert Subtree(e, [i] + p) == Some(Sentinel(k));
  }

  lemma {:induction false} PathContains(e: Err, k: Kind, path: seq<nat>)
    requires Subtree(e, path) == Some(Sentinel(k))
    ensures Contains(e, k)
    decreases |path|
  {
    if |path| > 0 {
      match e
      case Wrap(_, inner) =>
        PathContains(inner, k, path[1..]);
      case Join(es) =>
        PathContains(es[path[0]], k, path[1..]);
        ContainsAnyExists(es, k);
    }
  }

  /** Wrapping never hides text: the text of every error in the tree appears
      inside the text of the whole. */
  lemma {:induction false} SubtreeTextVisible(e: Err, path: seq<nat>)
    requires Subtree(e, path).Some?
    ensures Mentions(Text(e), Text(Subtree(e, path).value))
    decreases |path|
  {
    if |path| == 0 {
      MentionsSelf(Text(e));
    } else {
      match e
      case Wrap(context, inner) =>
        SubtreeTextVisible(inner, path[1..]);
        MentionsWithin(context + ": ", Text(inner), "", Text(Subtree(e, path).value));
        assert context + ": " + Text(inner) + "" == Text(e);
      case Join(es) =>
        SubtreeTextVisible(es[path[0]], path[1..]);
        LinesShowMember(es, path[0]);
        MentionsTransitive(Text(e), Text(es[path[0]]), Text(Subtree(e, path).value));
    }
  }

  lemma {:induction false} LinesShowMember(es: seq<Err>, i: nat)
    requires i < |es|
    ensures Mentions(Lines(es), Text(es[i]))
    decreases es
  {
    if |es| == 1 {
      MentionsSelf(Text(es[0]));
    } else if i == 0 {
      MentionsSelf(Text(es[0]));
      MentionsWithin("", Text(es[0]), "\n" + Lines(es[1..]), Text(es[0]));
      assert "" + Text(es[0]) + ("\n" + Lines(es[1..])) == Lines(es);
    } else {
      LinesShowMember(es[1..], i - 1);
      assert es[1..][i - 1] == es[i];
      MentionsWithin(Text(es[0]) + "\n", Lines(es[1..]), "", Text(es[i]));
      assert Text(es[0]) + "\n" + Lines(es[1..]) + "" == Lines(es);
    }
  }

  /** Wrapping keeps the classification and keeps the wrapped text visible
      behind the context. */
  function Wrapf(context: string, e: Err): (r: Err)
    ensures forall k :: Contains(r, k) <==> Contains(e, k)
    ensures StartsWith(Text(r), context + ":")
    ensures Mentions(Text(r), Text(e))
  {
    var r := Wrap(context, e);
    assert Subtree(r, [0]) == Some(e);
    SubtreeTextVisible(r, [0]);
    assert Text(r)[..|context + ":"|] == context + ":";
    r
  }

  /** The `errors.Join(ErrUnexpected, fmt.Errorf("<context>: %w", cause))`
      that account.go builds for every failed step: classified Unexpected, NotFound only if the cause is, and
      both the context and the cause's text stay readable. */
  function UnexpectedFailure(context: string, cause: Err): (r: Err)
    ensures Contains(r, Unexpected)
    ensures Contains(r, NotFound) <==> Contains(cause, NotFound)
    ensures Mentions(Text(r), context + ":")
    ensures Mentions(Text(r), Text(cause))
  {
    var w := Wrapf(context, cause);
    var r := Join([ErrUnexpected, w]);
    JoinOfTwo(ErrUnexpected, w);
    assert Subtree(r, [1]) == Some(w);
    SubtreeTextVisible(r, [1]);
    MentionsPrefix(Text(w), context + ":");
    MentionsTransitive(Text(r), Text(w), context + ":");
    MentionsTransitive(Text(r), Text(w), Text(cause));
    r
  }

  /** The opaque text `fmt.Errorf("unexpected status code %d", c)` prints. */
  function StatusDetail(statusCode: int): (r: string)
    ensures Mentions(r, FormatInt(statusCode))
  {
    var q := "unexpected status code ";
    MentionsSelf(FormatInt(statusCode));
    MentionsAfter(q, FormatInt(statusCode), FormatInt(statusCode));
    q + FormatInt(statusCode)
  }

  /** `convertToError`: 404 is exactly the NotFound sentinel; every other
      status is Unexpected and its text names the status code. */
  function ConvertToError(statusCode: int): (r: Err)
    ensures statusCode == StatusNotFound <==> r == ErrNotFound
    ensures Contains(r, NotFound) <==> statusCode == StatusNotFound
    ensures Contains(r, Unexpected) <==> statusCode != StatusNotFound
    ensures statusCode != StatusNotFound ==> Mentions(Text(r), FormatInt(statusCode))
  {
    if statusCode == StatusNotFound then ErrNotFound
    else
      var detail := Opaque(StatusDetail(statusCode));
      var r := Join([ErrUnexpected, detail]);
      JoinOfTwo(ErrUnexpected, detail);
      MentionsAfter(SentinelText(Unexpected) + "\n", StatusDetail(statusCode), FormatInt(statusCode));
      r
  }

  /** The text of a status error other than 404 is the Unexpected sentinel's
      text, a newline, and the status detail. */
  lemma StatusTextShape(c: int)
    requires c != StatusNotFound
    ensures Text(ConvertToError(c)) == SentinelText(Unexpected) + "\n" + StatusDetail(c)
  {
    JoinOfTwo(ErrUnexpected, Opaque(StatusDetail(c)));
  }

  /** A 404 error's text starts with 'n' ("not found error"); every other
      status error's text starts with 'u' ("unexpected error"). */
  lemma StatusTextFirstChar(c: int)
    ensures |Text(ConvertToError(c))| > 0
    ensures Text(ConvertToError(c))[0] == (if c == StatusNotFound then 'n' else 'u')
  {
    if c != StatusNotFound {
      StatusTextShape(c);
    }
  }

  /** The text of a status error identifies its code: two codes whose
      errors print the same text are the same code. */
  lemma StatusTextIdentifiesCode(c1: int, c2: int)
    requires Text(ConvertToError(c1)) == Text(ConvertToError(c2))
    ensures c1 == c2
  {
    if c1 == StatusNotFound || c2 == StatusNotFound {
      StatusTextFirstChar(c1);
      StatusTextFirstChar(c2);
      return;
    }
    StatusTextShape(c1);
    StatusTextShape(c2);
    var h := SentinelText(Unexpected) + "\n";
    var d1, d2 := StatusDetail(c1), StatusDetail(c2);
    assert d1 == (h + d1)[|h|..] == (h + d2)[|h|..] == d2;
    var q := "unexpected status code ";
    assert FormatInt(c1) == (q + FormatInt(c1))[|q|..];
    assert FormatInt(c2) == (q + FormatInt(c2))[|q|..];
    FormatIntInjective(c1, c2);
  }

  /** `IsErrNotFound`: a nil error is not NotFound; otherwise the answer is
      whether the NotFound sentinel occurs in the error tree. */
  function IsErrNotFound(err: Option<Err>): (b: bool)
    ensures b <==> err.Some? && InTree(ErrNotFound, err.value)
  {
    match err
    case None => false
    case Some(e) =>
      ContainsIffInTree(e, NotFound);
      Contains(e, NotFound)
  }

  /** `isErrUnexpected`: the same test for the Unexpected sentinel. */
  function IsErrUnexpected(err: Option<Err>): (b: bool)
    ensures b <==> err.Some? && InTree(ErrUnexpected, err.value)
  {
    match err
    case None => false
    case Some(e) =>
      ContainsIffInTree(e, Unexpected);
      Contains(e, Unexpected)
  }

  /** Each predicate recognises its own sentinel and not the other one. */
  lemma SentinelsAreDistinguished()
    ensures IsErrNotFound(Some(ErrNotFound)) && !IsErrNotFound(Some(ErrUnexpected))
    ensures IsErrUnexpected(Some(ErrUnexpected)) && !IsErrUnexpected(Some(ErrNotFound))
  {
  }

  /** Both predicates see through a wrapper and are true of a join exactly
      when true of some member; so a join of both kinds satisfies both. */
  lemma PredicatesThroughComposition(context: string, e: Err, es: seq<Err>)
    ensures IsErrNotFound(Some(Wrap(context, e))) == IsErrNotFound(Some(e))
    ensures IsErrUnexpected(Some(Wrap(context, e))) == IsErrUnexpected(Some(e))
    ensures IsErrNotFound(Some(Join(es))) <==> exists i :: 0 <= i < |es| && IsErrNotFound(Some(es[i]))
    ensures IsErrUnexpected(Some(Join(es))) <==> exists i :: 0 <= i < |es| && IsErrUnexpected(Some(es[i]))
  {
    ContainsAnyExists(es, NotFound);
    ContainsAnyExists(es, Unexpected);
  }
}
