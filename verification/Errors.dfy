/** Classified errors, as errors.go reads them. A Go error is a tree: `causes` are what Unwrap gives,
    one for a wrapping error, several for errors.Join or several %w, none for a plain error. */
module Errors {
  import opened Basics

  datatype Class = Permanent | Retryable | Discard

  datatype Error =
    | Opaque(msg: string, causes: seq<Error>)
    | Classified(class_: Class, cause: Error)

  /** AsPermanent, AsRetryable, AsDiscard: nil stays nil, and the new class overrides any inner verdict. */
  function Classify(c: Class, err: Option<Error>): (r: Option<Error>)
    ensures err.None? <==> r.None?
    ensures err.Some? ==> ClassOf(r) == Some(c)
  {
    match err
    case None => None
    case Some(e) => Some(Classified(c, e))
  }

  /** errors.As for *classifiedError: the error itself, then depth first through what it unwraps to. */
  function ClassOfTree(e: Error): Option<Class> {
    match e
    case Classified(c, _) => Some(c)
    case Opaque(_, causes) => FirstClass(causes)
  }

  function FirstClass(es: seq<Error>): Option<Class> {
    if es == [] then None
    else var c := ClassOfTree(es[0]);
         if c.Some? then c else FirstClass(es[1..])
  }

  function ClassOf(err: Option<Error>): Option<Class> {
    match err
    case None => None
    case Some(e) => ClassOfTree(e)
  }

  predicate IsPermanent(err: Option<Error>) {
    ClassOf(err) == Some(Permanent)
  }

  predicate IsDiscard(err: Option<Error>) {
    ClassOf(err) == Some(Discard)
  }

  predicate IsRetryable(err: Option<Error>) {
    err.Some? && (ClassOf(err).None? || ClassOf(err) == Some(Retryable))
  }

  // ----- an independent reading: the pre-order list of the tree's nodes -----

  function Preorder(e: Error): seq<Error> {
    match e
    case Classified(_, cause) => [e] + Preorder(cause)
    case Opaque(_, causes) => [e] + PreorderAll(causes)
  }

  function PreorderAll(es: seq<Error>): seq<Error> {
    if es == [] then [] else Preorder(es[0]) + PreorderAll(es[1..])
  }

  /** `c` is the class of the first classified node of `nodes`; None when there is none. */
  ghost predicate FirstIn(nodes: seq<Error>, c: Option<Class>) {
    match c
    case None => forall i :: 0 <= i < |nodes| ==> nodes[i].Opaque?
    case Some(cl) =>
      exists i :: 0 <= i < |nodes| && nodes[i].Classified? && nodes[i].class_ == cl
                  && forall j :: 0 <= j < i ==> nodes[j].Opaque?
  }

  lemma FirstInAppend(a: seq<Error>, b: seq<Error>, c: Option<Class>, d: Option<Class>)
    requires FirstIn(a, c) && FirstIn(b, d)
    ensures FirstIn(a + b, if c.Some? then c else d)
  {
    if c.Some? {
      var i :| 0 <= i < |a| && a[i].Classified? && a[i].class_ == c.value && forall j :: 0 <= j < i ==> a[j].Opaque?;
      assert (a + b)[i] == a[i];
    } else if d.Some? {
      var i :| 0 <= i < |b| && b[i].Classified? && b[i].class_ == d.value && forall j :: 0 <= j < i ==> b[j].Opaque?;
      assert (a + b)[|a| + i] == b[i];
    }
  }

  /** The verdict of an error tree is that of its first classified node, outermost first, in pre-order. */
  lemma {:induction false} OutermostWins(e: Error)
    ensures FirstIn(Preorder(e), ClassOfTree(e))
    decreases e, 1
  {
    match e
    case Classified(c, cause) => assert Preorder(e)[0] == e;
    case Opaque(_, causes) =>
      OutermostWinsAll(causes);
      assert FirstIn([e], None);
      FirstInAppend([e], PreorderAll(causes), None, FirstClass(causes));
  }

  lemma {:induction false} OutermostWinsAll(es: seq<Error>)
    ensures FirstIn(PreorderAll(es), FirstClass(es))
    decreases es, 0
  {
    if es != [] {
      OutermostWins(es[0]);
      OutermostWinsAll(es[1..]);
      FirstInAppend(Preorder(es[0]), PreorderAll(es[1..]), ClassOfTree(es[0]), FirstClass(es[1..]));
    }
  }

  /** Every error is exactly one of permanent, discard and retryable, by the first classified node of its
      tree; nil is none of them. */
  lemma VerdictOfTree(err: Option<Error>)
    ensures err.None? ==> !IsPermanent(err) && !IsDiscard(err) && !IsRetryable(err)
    ensures err.Some? ==> One(IsPermanent(err)) + One(IsDiscard(err)) + One(IsRetryable(err)) == 1
    ensures err.Some? ==>
              var nodes := Preorder(err.value);
              && (IsPermanent(err) <==> FirstIn(nodes, Some(Permanent)))
              && (IsDiscard(err) <==> FirstIn(nodes, Some(Discard)))
              && (IsRetryable(err) <==> FirstIn(nodes, None) || FirstIn(nodes, Some(Retryable)))
  {
    if err.Some? {
      OutermostWins(err.value);
      var nodes := Preorder(err.value);
      forall c, d | FirstIn(nodes, c) && FirstIn(nodes, d) ensures c == d {
        FirstIsUnique(nodes, c, d);
      }
    }
  }

  /** The retry loop's fallthrough: what is neither discard nor permanent is retryable. */
  lemma OtherwiseRetryable(err: Option<Error>)
    requires err.Some? && !IsDiscard(err) && !IsPermanent(err)
    ensures IsRetryable(err)
  {
    VerdictOfTree(err);
  }

  lemma FirstIsUnique(nodes: seq<Error>, c: Option<Class>, d: Option<Class>)
    requires FirstIn(nodes, c) && FirstIn(nodes, d)
    ensures c == d
  {
    if c.Some? && d.Some? {
      var i :| 0 <= i < |nodes| && nodes[i].Classified? && nodes[i].class_ == c.value
               && forall j :: 0 <= j < i ==> nodes[j].Opaque?;
      var k :| 0 <= k < |nodes| && nodes[k].Classified? && nodes[k].class_ == d.value
               && forall j :: 0 <= j < k ==> nodes[j].Opaque?;
    }
  }
}
