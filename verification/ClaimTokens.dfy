/**
 Consumer names and claim tokens: the string code that ties a claim to a worker and a message.
 */
module ClaimTokens {

  // ---- consumer names ----

  predicate Allowed(c: char) {
    ('a' <= c <= 'z') || ('0' <= c <= '9') || c == '.' || c == '_' || c == ':' || c == '-'
  }

  ghost predicate AllAllowed(s: string) {
    forall c :: c in s ==> Allowed(c)
  }

  /** What the normalisation takes from the standard library: `str.strip` and `str.lower`,
      which leave a string of allowed characters as it is. */
  datatype Library = Library(strip: string -> string, lower: string -> string)

  ghost predicate Lawful(lib: Library) {
    forall s :: AllAllowed(s) ==> lib.strip(s) == s && lib.lower(s) == s
  }

  /** Each maximal run of other characters becomes one dash. */
  function Collapse(s: string): (t: string)
    ensures AllAllowed(t)
    decreases |s|
  {
    if s == "" then ""
    else
      var first := if Allowed(s[0]) then s[0] else '-';
      var rest := Collapse(if Allowed(s[0]) then s[1..] else AfterRun(s));
      assert Allowed(first);
      [first] + rest
  }

  function AfterRun(s: string): (t: string)
    ensures |t| <= |s| && (s != "" && !Allowed(s[0]) ==> |t| < |s|)
  {
    if s != "" && !Allowed(s[0]) then AfterRun(s[1..]) else s
  }

  function TrimLeft(s: string): (t: string)
    ensures t == "" || t[0] != '-'
    ensures |t| <= |s| && s[|s| - |t|..] == t
  {
    if s != "" && s[0] == '-' then TrimLeft(s[1..]) else s
  }

  function TrimRight(s: string): (t: string)
    ensures t == "" || t[|t| - 1] != '-'
    ensures t <= s
  {
    if s != "" && s[|s| - 1] == '-' then TrimRight(s[..|s| - 1]) else s
  }

  function Normalize(lib: Library, worker: string): string {
    var n := TrimRight(TrimLeft(Collapse(lib.lower(lib.strip(worker)))));
    if n == "" then "default" else n
  }

  function ConsumerName(lib: Library, worker: string): string {
    "hes-worker:" + Normalize(lib, worker)
  }

  lemma {:induction false} CollapseFixes(s: string)
    requires AllAllowed(s)
    ensures Collapse(s) == s
  {
    if s != "" {
      assert s[0] in s && AllAllowed(s[1..]);
      CollapseFixes(s[1..]);
    }
  }

  lemma TrimsFix(s: string)
    requires s == "" || (s[0] != '-' && s[|s| - 1] != '-')
    ensures TrimRight(TrimLeft(s)) == s
  {
  }

  lemma TrimsKeepAllowed(s: string)
    requires AllAllowed(s)
    ensures AllAllowed(TrimRight(TrimLeft(s)))
    ensures var t := TrimRight(TrimLeft(s)); t == "" || (t[0] != '-' && t[|t| - 1] != '-')
  {
    var l := TrimLeft(s);
    var t := TrimRight(l);
    hide TrimLeft, TrimRight;
    SliceAllowed(s, |s| - |l|, |s|);
    assert l == s[|s| - |l|..|s|] && t == l[0..|t|];
    SliceAllowed(l, 0, |t|);
    if t != "" { assert t[0] == l[0]; }
  }

  lemma SliceAllowed(s: string, i: nat, j: nat)
    requires AllAllowed(s) && i <= j <= |s|
    ensures AllAllowed(s[i..j])
  {
    forall c | c in s[i..j] ensures Allowed(c) {
      var k :| 0 <= k < j - i && s[i..j][k] == c;
      assert s[i + k] in s;
    }
  }

  lemma DefaultFixes()
    ensures AllAllowed("default") && TrimRight(TrimLeft(Collapse("default"))) == "default"
  {
    CollapseFixes("default");
    TrimsFix("default");
  }

  /** A normalised name is never empty, consists of allowed characters, and is its own normal form. */
  lemma NormalizeFixes(lib: Library, worker: string)
    requires Lawful(lib)
    ensures var n := Normalize(lib, worker);
            n != "" && AllAllowed(n) && Normalize(lib, n) == n
  {
    hide Collapse, TrimLeft, TrimRight, AllAllowed;
    DefaultFixes();
    var c := Collapse(lib.lower(lib.strip(worker)));
    var t := TrimRight(TrimLeft(c));
    TrimsKeepAllowed(c);
    if t != "" {
      CollapseFixes(t);
      TrimsFix(t);
    }
  }

  // ---- what normalisation keeps ----

  predicate InWord(c: char) {
    Allowed(c) && c != '-'
  }

  /** The maximal runs of allowed characters other than dashes. */
  function Words(s: string): (words: seq<string>)
    ensures s != "" && InWord(s[0]) ==> words != []
  {
    if s == "" then []
    else if !InWord(s[0]) then Words(s[1..])
    else if |s| > 1 && InWord(s[1]) then [[s[0]] + Words(s[1..])[0]] + Words(s[1..])[1..]
    else [[s[0]]] + Words(s[1..])
  }

  lemma {:induction false} AfterRunWords(s: string)
    ensures Words(AfterRun(s)) == Words(s)
  {
    if s != "" && !Allowed(s[0]) { AfterRunWords(s[1..]); }
  }

  /** Collapsing keeps the words, and whether the string starts with one. */
  lemma {:induction false} CollapseWords(s: string)
    ensures Words(Collapse(s)) == Words(s)
    ensures s != "" ==> Collapse(s) != "" && (InWord(Collapse(s)[0]) <==> InWord(s[0]))
    decreases |s|
  {
    if s != "" {
      var tail := if Allowed(s[0]) then s[1..] else AfterRun(s);
      CollapseWords(tail);
      AfterRunWords(s);
      var t := Collapse(s);
      assert t[1..] == Collapse(tail);
    }
  }

  lemma {:induction false} TrimLeftWords(s: string)
    ensures Words(TrimLeft(s)) == Words(s)
  {
    if s != "" && s[0] == '-' { TrimLeftWords(s[1..]); }
  }

  lemma {:induction false} DashAppendWords(s: string)
    ensures Words(s + "-") == Words(s)
  {
    if s != "" {
      DashAppendWords(s[1..]);
      assert (s + "-")[1..] == s[1..] + "-";
    }
  }

  lemma {:induction false} TrimRightWords(s: string)
    ensures Words(TrimRight(s)) == Words(s)
    decreases |s|
  {
    if s != "" && s[|s| - 1] == '-' {
      TrimRightWords(s[..|s| - 1]);
      DashAppendWords(s[..|s| - 1]);
      assert s == s[..|s| - 1] + "-";
    }
  }

  lemma {:induction false} NoWords(s: string)
    requires AllAllowed(s) && Words(s) == []
    ensures forall i :: 0 <= i < |s| ==> s[i] == '-'
  {
    if s != "" {
      assert s[0] in s;
      assert AllAllowed(s[1..]);
      NoWords(s[1..]);
    }
  }

  /** A normalised name has the words of the lower-cased worker name, in order, still apart where
      they were apart, with no dash at either end; a name without words becomes "default". */
  lemma NormalizeKeepsWords(lib: Library, worker: string)
    ensures var words, n := Words(lib.lower(lib.strip(worker))), Normalize(lib, worker);
            if words == [] then n == "default"
            else Words(n) == words && n != "" && AllAllowed(n) && n[0] != '-' && n[|n| - 1] != '-'
  {
    var c := Collapse(lib.lower(lib.strip(worker)));
    var t := TrimRight(TrimLeft(c));
    CollapseWords(lib.lower(lib.strip(worker)));
    TrimLeftWords(c);
    TrimRightWords(TrimLeft(c));
    TrimsKeepAllowed(c);
    if Words(t) == [] && t != "" {
      NoWords(t);
      assert false;
    }
  }

  // ---- claim tokens ----

  predicate OccursAt(s: string, part: string, i: nat) {
    i + |part| <= |s| && s[i..i + |part|] == part
  }

  predicate Contains(s: string, part: string) {
    exists i | 0 <= i <= |s| :: OccursAt(s, part, i)
  }

  function BuildClaimToken(group: string, consumer: string, messageId: string, window: string): string {
    "redis-claim:" + group + ":" + consumer + ":" + messageId + ":" + window
  }

  predicate ClaimTokenMatches(token: string, consumer: string, messageId: string) {
    "redis-claim:" <= token && Contains(token, consumer) && Contains(token, ":" + messageId + ":")
  }

  lemma ContainsAt(a: string, part: string, b: string)
    ensures Contains(a + part + b, part)
  {
    assert OccursAt(a + part + b, part, |a|);
  }

  /** A built token always matches its own consumer and message. */
  lemma BuiltTokenMatches(group: string, consumer: string, messageId: string, window: string)
    ensures ClaimTokenMatches(BuildClaimToken(group, consumer, messageId, window), consumer, messageId)
  {
    var token := BuildClaimToken(group, consumer, messageId, window);
    var head := "redis-claim:" + group + ":";
    assert token == head + consumer + (":" + messageId + ":" + window);
    ContainsAt(head, consumer, ":" + messageId + ":" + window);
    assert token == (head + consumer) + (":" + messageId + ":") + window;
    ContainsAt(head + consumer, ":" + messageId + ":", window);
    assert token[..|"redis-claim:"|] == "redis-claim:";
  }

  // ---- the message test, exactly ----

  predicate ColonFree(s: string) {
    ':' !in s
  }

  /** The colon-delimited segments of a token. */
  function Segments(s: string): (parts: seq<string>)
    ensures |parts| >= 1
  {
    if s == "" then [""] else Push(s[0], Segments(s[1..]))
  }

  /** One more character in front: a colon opens a segment, any other character joins the first. */
  function Push(c: char, parts: seq<string>): (r: seq<string>)
    requires parts != []
    ensures |r| >= |parts|
  {
    if c == ':' then [""] + parts else [[c] + parts[0]] + parts[1..]
  }

  lemma PushConcat(c: char, p: seq<string>, q: seq<string>)
    requires p != []
    ensures Push(c, p + q) == Push(c, p) + q
  {
    assert (p + q)[0] == p[0] && (p + q)[1..] == p[1..] + q;
  }

  ghost predicate InteriorSegment(token: string, id: string) {
    var parts := Segments(token);
    exists i :: 0 < i < |parts| - 1 && parts[i] == id
  }

  lemma {:induction false} SegmentsOfColonFree(s: string)
    requires ColonFree(s)
    ensures Segments(s) == [s]
  {
    if s != "" {
      SegmentsOfColonFree(s[1..]);
      assert [s[0]] + s[1..] == s;
    }
  }

  /** Splitting after a colon splits the segments. */
  lemma {:induction false} SegmentsSplit(a: string, b: string)
    ensures Segments(a + ":" + b) == Segments(a) + Segments(b)
  {
    hide Push;
    var s := a + ":" + b;
    if a == "" {
      assert s[1..] == b;
      PushColon(Segments(b));
    } else {
      SegmentsSplit(a[1..], b);
      assert s[0] == a[0] && s[1..] == a[1..] + ":" + b;
      PushConcat(a[0], Segments(a[1..]), Segments(b));
    }
  }

  lemma PushColon(parts: seq<string>)
    requires parts != []
    ensures Push(':', parts) == [""] + parts
  {
  }

  /** An interior segment is what stands between two colons. */
  lemma {:induction false} JoinAt(token: string, i: nat)
    requires 0 < i < |Segments(token)| - 1
    ensures Contains(token, ":" + Segments(token)[i] + ":")
    decreases |token|
  {
    var tail := token[1..];
    var rest := Segments(tail);
    if token[0] == ':' && i == 1 {
      HeadSegment(tail);
      var part := ":" + rest[0] + ":";
      assert token == ":" + tail;
      assert token[..|part|] == part;
      assert OccursAt(token, part, 0);
    } else {
      var k := if token[0] == ':' then i - 1 else i;
      JoinAt(tail, k);
      var part := ":" + rest[k] + ":";
      var j :| 0 <= j <= |tail| && OccursAt(tail, part, j);
      assert OccursAt(token, part, j + 1);
    }
  }

  /** The first segment is followed by a colon unless it is the only one. */
  lemma {:induction false} HeadSegment(s: string)
    ensures |Segments(s)| > 1 ==> Segments(s)[0] + ":" <= s
  {
    if s != "" && s[0] != ':' {
      HeadSegment(s[1..]);
      if |Segments(s)| > 1 {
        var h := Segments(s[1..])[0] + ":";
        assert s[1..][..|h|] == h;
        assert s[..|h| + 1] == [s[0]] + h;
        assert Segments(s)[0] + ":" == [s[0]] + h;
      }
    }
  }

  /** For an identifier without colons, the message test holds exactly when the identifier
      is an interior colon-delimited segment of the token. */
  lemma MessageTestIsSegment(token: string, id: string)
    requires ColonFree(id)
    ensures Contains(token, ":" + id + ":") <==> InteriorSegment(token, id)
  {
    var part := ":" + id + ":";
    if Contains(token, part) {
      var i :| 0 <= i <= |token| && OccursAt(token, part, i);
      var a, b := token[..i], token[i + |part|..];
      assert token == a + part + b;
      assert token == a + ":" + (id + ":" + b);
      SegmentsSplit(a, id + ":" + b);
      SegmentsSplit(id, b);
      SegmentsOfColonFree(id);
      assert Segments(token)[|Segments(a)|] == id;
    }
    if InteriorSegment(token, id) {
      var parts := Segments(token);
      var i :| 0 < i < |parts| - 1 && parts[i] == id;
      JoinAt(token, i);
    }
  }

  lemma {:induction false} SegmentsOfJoin(parts: seq<string>)
    requires parts != [] && forall p :: p in parts ==> ColonFree(p)
    ensures Segments(Join(parts)) == parts
  {
    SegmentsOfColonFree(parts[0]);
    if |parts| > 1 {
      SegmentsOfJoin(parts[1..]);
      SegmentsSplit(parts[0], Join(parts[1..]));
      assert [parts[0]] + parts[1..] == parts;
    }
  }

  function Join(parts: seq<string>): string
    requires parts != []
  {
    if |parts| == 1 then parts[0] else parts[0] + ":" + Join(parts[1..])
  }

  lemma BuiltTokenIsJoin(group: string, worker: string, messageId: string, window: string)
    ensures BuildClaimToken(group, "hes-worker:" + worker, messageId, window)
            == Join(["redis-claim", group, "hes-worker", worker, messageId, window])
  {
    var parts := ["redis-claim", group, "hes-worker", worker, messageId, window];
    assert parts[1..] == [group, "hes-worker", worker, messageId, window];
    assert parts[1..][1..] == ["hes-worker", worker, messageId, window];
    assert parts[1..][1..][1..] == [worker, messageId, window];
    assert parts[1..][1..][1..][1..] == [messageId, window];
    assert parts[1..][1..][1..][1..][1..] == [window];
    assert Join([messageId, window]) == messageId + ":" + window;
    assert Join([worker, messageId, window]) == worker + ":" + (messageId + ":" + window);
    assert Join(["hes-worker", worker, messageId, window])
        == "hes-worker" + ":" + (worker + ":" + (messageId + ":" + window));
    assert "redis-claim" + ":" == "redis-claim:" && "hes-worker" + ":" == "hes-worker:";
  }

  /** A token built with colon-free parts matches, besides its own message, only an
      identifier that is spelled like its group or its worker. */
  lemma BuiltTokenNamesOneMessage(group: string, worker: string, messageId: string, window: string, other: string)
    requires ColonFree(group) && ColonFree(worker) && ColonFree(messageId) && ColonFree(window) && ColonFree(other)
    ensures var token := BuildClaimToken(group, "hes-worker:" + worker, messageId, window);
            Contains(token, ":" + other + ":") <==> other in {group, "hes-worker", worker, messageId}
  {
    var token := BuildClaimToken(group, "hes-worker:" + worker, messageId, window);
    var parts := ["redis-claim", group, "hes-worker", worker, messageId, window];
    BuiltTokenIsJoin(group, worker, messageId, window);
    assert ColonFree("redis-claim") && ColonFree("hes-worker");
    SegmentsOfJoin(parts);
    MessageTestIsSegment(token, other);
    assert parts[1] == group && parts[2] == "hes-worker" && parts[3] == worker && parts[4] == messageId;
  }

  // ---- the consumer test, exactly ----

  ghost predicate Suffix(s: string, part: string) {
    |part| <= |s| && s[|s| - |part|..] == part
  }

  /** Two neighbouring segments, the one ending and the other starting as asked. */
  ghost predicate Neighbours(token: string, a: string, b: string) {
    var parts := Segments(token);
    exists i :: 0 <= i < |parts| - 1 && Suffix(parts[i], a) && b <= parts[i + 1]
  }

  lemma {:induction false} FirstSegment(b: string, y: string)
    requires ColonFree(b)
    ensures b <= Segments(b + y)[0]
  {
    if b != "" {
      FirstSegment(b[1..], y);
      assert (b + y)[1..] == b[1..] + y;
    }
  }

  lemma {:induction false} LastSegment(x: string, a: string)
    requires ColonFree(a)
    ensures var parts := Segments(x + a); Suffix(parts[|parts| - 1], a)
  {
    hide Segments, Push, Suffix;
    if x == "" {
      SegmentsOfColonFree(a);
      assert x + a == a;
      WholeIsSuffix(a);
    } else {
      LastSegment(x[1..], a);
      assert (x + a)[1..] == x[1..] + a;
      PushedSegments(x + a);
      PushKeepsSuffix((x + a)[0], Segments(x[1..] + a), a);
    }
  }

  lemma WholeIsSuffix(a: string)
    ensures Suffix(a, a)
  {
  }

  lemma PushedSegments(s: string)
    requires s != ""
    ensures Segments(s) == Push(s[0], Segments(s[1..]))
  {
  }

  lemma SuffixGrows(c: char, s: string, a: string)
    requires Suffix(s, a)
    ensures Suffix([c] + s, a)
  {
    var t := [c] + s;
    assert t[|t| - |a|..] == s[|s| - |a|..];
  }

  lemma PushKeepsSuffix(c: char, parts: seq<string>, a: string)
    requires parts != [] && Suffix(parts[|parts| - 1], a)
    ensures var more := Push(c, parts); Suffix(more[|more| - 1], a)
  {
    SuffixGrows(c, parts[|parts| - 1], a);
    hide Suffix;
  }

  /** Neighbouring segments stand around one colon. */
  lemma {:induction false} PairAt(token: string, i: nat) returns (p: string, q: string)
    requires i < |Segments(token)| - 1
    ensures token == p + Segments(token)[i] + ":" + Segments(token)[i + 1] + q
    decreases |token|
  {
    var tail := token[1..];
    var rest := Segments(tail);
    assert token == [token[0]] + tail;
    if token[0] == ':' && i == 0 {
      q := FirstOf(tail);
      p := "";
      assert token == p + Segments(token)[0] + ":" + Segments(token)[1] + q;
    } else if token[0] != ':' && i == 0 {
      p, q := PairAt(tail, 0);
      q := AfterFirst(tail);
      p := "";
      assert Segments(token)[0] == [token[0]] + rest[0] && Segments(token)[1] == rest[1];
      assert token == p + Segments(token)[0] + ":" + Segments(token)[1] + q;
    } else {
      var k := if token[0] == ':' then i - 1 else i;
      p, q := PairAt(tail, k);
      p := [token[0]] + p;
      assert token == p + Segments(token)[i] + ":" + Segments(token)[i + 1] + q;
    }
  }

  /** What follows the first segment. */
  lemma {:induction false} FirstOf(s: string) returns (q: string)
    ensures s == Segments(s)[0] + q
  {
    if s == "" || s[0] == ':' { return s; }
    q := FirstOf(s[1..]);
    assert s == [s[0]] + s[1..];
  }

  /** And what follows the second. */
  lemma {:induction false} AfterFirst(s: string) returns (q: string)
    requires |Segments(s)| > 1
    ensures s == Segments(s)[0] + ":" + Segments(s)[1] + q
  {
    assert s == [s[0]] + s[1..];
    if s[0] == ':' {
      q := FirstOf(s[1..]);
    } else {
      q := AfterFirst(s[1..]);
    }
  }

  /** A token names a consumer of two parts exactly when it has neighbouring segments that end and
      start like them. */
  lemma ConsumerTestIsNeighbours(token: string, a: string, b: string)
    requires ColonFree(a) && ColonFree(b)
    ensures Contains(token, a + ":" + b) <==> Neighbours(token, a, b)
  {
    if Contains(token, a + ":" + b) { ContainedNeighbours(token, a, b); }
    if Neighbours(token, a, b) { NeighboursContained(token, a, b); }
  }

  lemma Around(x: string, a: string, b: string, y: string)
    ensures x + (a + ":" + b) + y == (x + a) + ":" + (b + y)
  {
  }

  lemma ContainedNeighbours(token: string, a: string, b: string)
    requires ColonFree(a) && ColonFree(b) && Contains(token, a + ":" + b)
    ensures Neighbours(token, a, b)
  {
    var part := a + ":" + b;
    var i :| 0 <= i <= |token| && OccursAt(token, part, i);
    var x, y := token[..i], token[i + |part|..];
    assert token == x + part + y;
    Around(x, a, b, y);
    SegmentsSplit(x + a, b + y);
    LastSegment(x, a);
    FirstSegment(b, y);
    var k := |Segments(x + a)| - 1;
    assert Segments(token)[k] == Segments(x + a)[k] && Segments(token)[k + 1] == Segments(b + y)[0];
  }

  lemma NeighboursContained(token: string, a: string, b: string)
    requires Neighbours(token, a, b)
    ensures Contains(token, a + ":" + b)
  {
    hide Segments;
    var parts := Segments(token);
    var i :| 0 <= i < |parts| - 1 && Suffix(parts[i], a) && b <= parts[i + 1];
    var p, q := PairAt(token, i);
    var head, tail := parts[i][..|parts[i]| - |a|], parts[i + 1][|b|..];
    assert parts[i] == head + a && parts[i + 1] == b + tail;
    Around(p + head, a, b, tail + q);
    assert token == (p + head + a) + ":" + (b + (tail + q));
    ContainsAt(p + head, a + ":" + b, tail + q);
  }

  /** The claimants such a token names besides its worker. */
  ghost predicate PassesFor(group: string, worker: string, messageId: string, window: string, claimant: string) {
    || claimant <= worker
    || (Suffix(group, "hes-worker") && claimant <= "hes-worker")
    || (Suffix(worker, "hes-worker") && claimant <= messageId)
    || (Suffix(messageId, "hes-worker") && claimant <= window)
  }

  /** Exactly which consumers and messages a token made of colon-free parts matches: besides its own
      it is refused for every other, except that a worker whose name the token's worker name starts
      with, or that is spelled like its neighbours, passes for the consumer, and the token's group
      and worker names pass for the message. */
  lemma BuiltTokenMatchesExactly(group: string, worker: string, messageId: string, window: string,
      claimant: string, other: string)
    requires ColonFree(group) && ColonFree(worker) && ColonFree(messageId) && ColonFree(window)
    requires ColonFree(claimant) && ColonFree(other)
    ensures ClaimTokenMatches(BuildClaimToken(group, "hes-worker:" + worker, messageId, window),
                              "hes-worker:" + claimant, other)
            <==> && other in {group, "hes-worker", worker, messageId}
                 && PassesFor(group, worker, messageId, window, claimant)
  {
    hide Segments, Neighbours, PassesFor, Contains;
    var token := BuildClaimToken(group, "hes-worker:" + worker, messageId, window);
    var parts := ["redis-claim", group, "hes-worker", worker, messageId, window];
    BuiltTokenNamesOneMessage(group, worker, messageId, window, other);
    BuiltTokenIsJoin(group, worker, messageId, window);
    assert ColonFree("redis-claim") && ColonFree("hes-worker");
    SegmentsOfJoin(parts);
    assert "hes-worker:" + claimant == "hes-worker" + ":" + claimant;
    ConsumerTestIsNeighbours(token, "hes-worker", claimant);
    PartsNeighbours(token, group, worker, messageId, window, claimant);
    assert token[..|"redis-claim:"|] == "redis-claim:";
  }

  lemma PartsNeighbours(token: string, group: string, worker: string, messageId: string, window: string,
      claimant: string)
    requires Segments(token) == ["redis-claim", group, "hes-worker", worker, messageId, window]
    ensures Neighbours(token, "hes-worker", claimant) <==> PassesFor(group, worker, messageId, window, claimant)
  {
    hide Segments;
    assert Suffix("hes-worker", "hes-worker");
    assert !Suffix("redis-claim", "hes-worker") by { assert "redis-claim"[1..][0] == 'e' && "hes-worker"[0] == 'h'; }
    var n := Segments(token);
    assert n[0] == "redis-claim" && n[1] == group && n[2] == "hes-worker" && n[3] == worker && n[4] == messageId
        && n[5] == window;
    if claimant <= worker { assert Suffix(n[2], "hes-worker") && claimant <= n[3]; }
    if Suffix(group, "hes-worker") && claimant <= "hes-worker" {
      assert Suffix(n[1], "hes-worker") && claimant <= n[2];
    }
    if Suffix(worker, "hes-worker") && claimant <= messageId { assert Suffix(n[3], "hes-worker") && claimant <= n[4]; }
    if Suffix(messageId, "hes-worker") && claimant <= window { assert Suffix(n[4], "hes-worker") && claimant <= n[5]; }
  }

  /** Whatever the token, it is refused unless it is a claim token, has the consumer's name in it
      and the message's identifier between two colons. */
  lemma MatchesExactly(token: string, consumer: string, id: string)
    requires ColonFree(id)
    ensures ClaimTokenMatches(token, consumer, id)
            <==> "redis-claim:" <= token && (exists a, b :: token == a + consumer + b) && InteriorSegment(token, id)
  {
    hide InteriorSegment;
    MessageTestIsSegment(token, id);
    if Contains(token, consumer) {
      var i :| 0 <= i <= |token| && OccursAt(token, consumer, i);
      assert token == token[..i] + consumer + token[i + |consumer|..];
    }
    if a, b :| token == a + consumer + b {
      ContainsAt(a, consumer, b);
    }
  }
}
