/** Recognisers for event types and schema versions (validation.go), and the major version they route by. */
module Validation {
  import opened Basics
  import opened Strconv

  datatype Envelope = Envelope(
    eventId: string, eventType: string, schemaVersion: string,
    source: string, correlationId: string, hasTimestamp: bool, payload: string)

  // ----- splitting at dots -----

  /** The text before the first dot, and what follows it. strings.Cut(s, "."). */
  function Cut(s: string): (string, Option<string>) {
    if s == "" then ("", None)
    else if s[0] == '.' then ("", Some(s[1..]))
    else var (head, rest) := Cut(s[1..]); ([s[0]] + head, rest)
  }

  predicate NoDot(s: string) {
    '.' !in s
  }

  lemma {:induction false} CutAtFirstDot(a: string, b: string)
    requires NoDot(a)
    ensures Cut(a + "." + b) == (a, Some(b)) && Cut(a) == (a, None)
  {
    if a == "" {
      assert "" + "." + b == "." + b;
    } else {
      assert a[0] in a && forall c :: c in a[1..] ==> c in a;
      CutAtFirstDot(a[1..], b);
      assert (a + "." + b)[1..] == a[1..] + "." + b && (a + "." + b)[0] == a[0];
      assert [a[0]] + a[1..] == a;
    }
  }

  lemma {:induction false} CutRejoins(s: string)
    ensures NoDot(Cut(s).0)
    ensures match Cut(s).1 case None => Cut(s).0 == s case Some(rest) => s == Cut(s).0 + "." + rest && |rest| < |s|
  {
    if s != "" && s[0] != '.' {
      CutRejoins(s[1..]);
    }
  }

  // ----- the two patterns -----

  /** [a-z][a-z0-9_]* */
  predicate IsSegment(s: string) {
    && s != ""
    && 'a' <= s[0] <= 'z'
    && forall i :: 0 < i < |s| ==> 'a' <= s[i] <= 'z' || IsDigit(s[i]) || s[i] == '_'
  }

  /** ^\d+\.\d+\.\d+$ */
  predicate IsSchemaVersion(s: string) {
    var (major, rest) := Cut(s);
    && rest.Some?
    && var (minor, rest') := Cut(rest.value);
       && rest'.Some?
       && major != "" && AllDigits(major) && minor != "" && AllDigits(minor)
       && rest'.value != "" && AllDigits(rest'.value)
  }

  /** ^[a-z][a-z0-9_]*(\.[a-z][a-z0-9_]*){1,2}$ */
  predicate IsEventType(s: string) {
    var (first, rest) := Cut(s);
    && IsSegment(first)
    && rest.Some?
    && var (second, rest') := Cut(rest.value);
       IsSegment(second) && (rest'.Some? ==> IsSegment(rest'.value))
  }

  lemma DigitsHaveNoDot(s: string)
    requires Digits(s)
    ensures NoDot(s)
  {
  }

  lemma DottedDigits(a: string, b: string, c: string)
    requires Digits(a) && Digits(b) && Digits(c)
    ensures Cut(a + "." + b + "." + c) == (a, Some(b + "." + c)) && Cut(b + "." + c) == (b, Some(c))
    ensures IsSchemaVersion(a + "." + b + "." + c)
  {
    assert a + "." + b + "." + c == a + "." + (b + "." + c);
    DigitsHaveNoDot(a);
    DigitsHaveNoDot(b);
    CutAtFirstDot(a, b + "." + c);
    CutAtFirstDot(b, c);
  }

  /** The recogniser accepts exactly the texts of the pattern: three digit runs joined by dots. */
  lemma SchemaVersionPattern(s: string)
    ensures IsSchemaVersion(s) <==>
              exists a, b, c :: Digits(a) && Digits(b) && Digits(c) && s == a + "." + b + "." + c
  {
    if IsSchemaVersion(s) {
      var (a, r) := Cut(s);
      CutRejoins(s);
      var (b, r') := Cut(r.value);
      CutRejoins(r.value);
      assert Digits(a) && Digits(b) && Digits(r'.value);
      assert s == a + "." + b + "." + r'.value;
    }
    if a, b, c :| Digits(a) && Digits(b) && Digits(c) && s == a + "." + b + "." + c {
      DottedDigits(a, b, c);
    }
  }

  lemma TwoSegments(a: string, b: string)
    requires IsSegment(a) && IsSegment(b)
    ensures IsEventType(a + "." + b)
  {
    CutAtFirstDot(a, b);
    CutAtFirstDot(b, "");
  }

  lemma ThreeSegments(a: string, b: string, c: string)
    requires IsSegment(a) && IsSegment(b) && IsSegment(c)
    ensures IsEventType(a + "." + b + "." + c)
  {
    assert a + "." + b + "." + c == a + "." + (b + "." + c);
    CutAtFirstDot(a, b + "." + c);
    CutAtFirstDot(b, c);
  }

  /** Two or three lower-case segments joined by dots. */
  lemma EventTypePattern(s: string)
    ensures IsEventType(s) <==>
              || (exists a, b :: IsSegment(a) && IsSegment(b) && s == a + "." + b)
              || (exists a, b, c :: IsSegment(a) && IsSegment(b) && IsSegment(c) && s == a + "." + b + "." + c)
  {
    if IsEventType(s) {
      var (a, r) := Cut(s);
      CutRejoins(s);
      var (b, r') := Cut(r.value);
      CutRejoins(r.value);
      if r'.Some? {
        assert s == a + "." + b + "." + r'.value;
      } else {
        assert s == a + "." + b;
      }
    }
    if a, b :| IsSegment(a) && IsSegment(b) && s == a + "." + b {
      TwoSegments(a, b);
    }
    if a, b, c :| IsSegment(a) && IsSegment(b) && IsSegment(c) && s == a + "." + b + "." + c {
      ThreeSegments(a, b, c);
    }
  }

  /** validateEnvelope: every required field, and the two patterns. */
  predicate ValidEnvelope(e: Envelope) {
    && e.eventId != ""
    && IsEventType(e.eventType)
    && IsSchemaVersion(e.schemaVersion)
    && e.source != ""
    && e.correlationId != ""
    && e.hasTimestamp
  }

  /** A segment, by ASCII codes: a to z, then a to z, 0 to 9 and the underscore. */
  lemma SegmentAlphabet(s: string)
    ensures IsSegment(s) <==>
              && s != "" && 97 <= s[0] as int <= 122
              && forall i :: 0 < i < |s| ==>
                   97 <= s[i] as int <= 122 || 48 <= s[i] as int <= 57 || s[i] as int == 95
  {
  }

  /** An envelope is valid exactly when its id, source and correlation id are not empty, it has a timestamp, and type and
      version match their patterns. */
  lemma EnvelopeRules(e: Envelope)
    ensures ValidEnvelope(e) <==>
              && e.eventId != "" && e.source != "" && e.correlationId != "" && e.hasTimestamp
              && ((exists a, b :: IsSegment(a) && IsSegment(b) && e.eventType == a + "." + b)
                  || (exists a, b, c :: IsSegment(a) && IsSegment(b) && IsSegment(c) && e.eventType == a + "." + b + "." + c))
              && (exists a, b, c :: Digits(a) && Digits(b) && Digits(c) && e.schemaVersion == a + "." + b + "." + c)
  {
    EventTypePattern(e.eventType);
    SchemaVersionPattern(e.schemaVersion);
  }

  /** majorVersion: what precedes the first dot, read by Atoi. */
  function MajorVersion(version: string): Option<int> {
    var (segment, rest) := Cut(version);
    if rest.None? then None else ParseInt(segment)
  }

  /** A well-formed version routes exactly when its leading digit run fits in an int; the route is that
      run's value, never negative, whatever the minor and patch parts are. */
  lemma RoutableVersion(major: string, minor: string, patch: string)
    requires Digits(major) && Digits(minor) && Digits(patch)
    ensures IsSchemaVersion(major + "." + minor + "." + patch)
    ensures MajorVersion(major + "." + minor + "." + patch)
         == if Value(major) <= MAX_INT64 then Some(Value(major)) else None
  {
    DottedDigits(major, minor, patch);
  }
}
