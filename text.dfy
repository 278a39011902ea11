/**
 * String operations the server code relies on: the case-insensitive
 * substring test behind `ilike(name, '%search%')`, the text ordering behind
 * `desc(id)`, and JavaScript's `split` as used on the `"type:id"` call cid.
 */
module Text {
  import opened Schema

  /** ASCII lower-casing of one character. */
  function Lower(c: char): (r: char)
    ensures 'A' <= c <= 'Z' ==> r as int == c as int + 32
    ensures !('A' <= c <= 'Z') ==> r == c
    ensures !('A' <= r <= 'Z')
  {
    if 'A' <= c <= 'Z' then (c as int + 32) as char else c
  }

  function LowerStr(s: string): (r: string)
    ensures |r| == |s|
    ensures forall i :: 0 <= i < |s| ==> r[i] == Lower(s[i])
  {
    seq(|s|, i requires 0 <= i < |s| => Lower(s[i]))
  }

  /** p occurs in s at position i. */
  ghost predicate OccursAt(p: string, s: string, i: int) {
    0 <= i && i + |p| <= |s| && s[i..i + |p|] == p
  }

  /** An occurrence in s is at its start or is an occurrence in s[1..], shifted by one. */
  lemma {:induction false} OccursShift(p: string, s: string)
    requires |s| > 0
    ensures forall i :: OccursAt(p, s, i) <==> (i == 0 && p <= s) || (i >= 1 && OccursAt(p, s[1..], i - 1))
  {
    forall i ensures OccursAt(p, s, i) <==> (i == 0 && p <= s) || (i >= 1 && OccursAt(p, s[1..], i - 1)) {
      if i >= 1 && i + |p| <= |s| {
        assert s[1..][i - 1..i - 1 + |p|] == s[i..i + |p|];
      }
    }
  }

  /** Substring search, by scanning s from the left. */
  function IsSubstring(p: string, s: string): (r: bool)
    ensures r <==> exists i :: OccursAt(p, s, i)
    decreases |s|
  {
    if p <= s then
      assert OccursAt(p, s, 0);
      true
    else if |s| == 0 then
      false
    else
      OccursShift(p, s);
      var r := IsSubstring(p, s[1..]);
      assert r ==> OccursAt(p, s, 1 + (var i :| OccursAt(p, s[1..], i); i));
      r
  }

  /**
   * `ilike(name, '%search%')`: search occurs in name, ignoring the case of
   * ASCII letters.
   */
  function ContainsIgnoreCase(name: string, search: string): (r: bool)
    ensures r <==> exists i :: OccursAt(LowerStr(search), LowerStr(name), i)
  {
    IsSubstring(LowerStr(search), LowerStr(name))
  }

  lemma {:induction false} ContainsIgnoreCaseEmpty(name: string)
    ensures ContainsIgnoreCase(name, "")
  {
    assert OccursAt(LowerStr(""), LowerStr(name), 0);
  }

  /** The match does not depend on the case of the name's letters. */
  lemma {:induction false} ContainsIgnoresNameCase(name: string, search: string)
    ensures ContainsIgnoreCase(LowerStr(name), search) == ContainsIgnoreCase(name, search)
  {
    LowerIdempotent(name);
  }

  lemma {:induction false} LowerIdempotent(s: string)
    ensures LowerStr(LowerStr(s)) == LowerStr(s)
  {
    var l := LowerStr(s);
    assert forall i :: 0 <= i < |l| ==> Lower(l[i]) == l[i];
  }

  /** Strict text order: code-point lexicographic comparison. */
  predicate StrLess(a: string, b: string)
    ensures StrLess(a, b) ==> a != b
    ensures a < b ==> StrLess(a, b)
    ensures StrLess(a, b) && |a| > 0 && |b| > 0 ==> a[0] <= b[0]
    ensures |a| > 0 && |b| > 0 && a[0] < b[0] ==> StrLess(a, b)
    decreases |a|
  {
    if |a| == 0 then |b| > 0
    else if |b| == 0 then false
    else if a[0] < b[0] then true
    else a[0] == b[0] && StrLess(a[1..], b[1..])
  }

  lemma {:induction false} StrLessIrreflexive(a: string)
    ensures !StrLess(a, a)
    decreases |a|
  {
    if |a| > 0 { StrLessIrreflexive(a[1..]); }
  }

  lemma {:induction false} StrLessTransitive(a: string, b: string, c: string)
    requires StrLess(a, b) && StrLess(b, c)
    ensures StrLess(a, c)
    decreases |a|
  {
    if |a| > 0 && a[0] == b[0] && b[0] == c[0] {
      StrLessTransitive(a[1..], b[1..], c[1..]);
    }
  }

  lemma {:induction false} StrLessTotal(a: string, b: string)
    ensures a == b || StrLess(a, b) || StrLess(b, a)
    decreases |a|
  {
    if |a| > 0 && |b| > 0 && a[0] == b[0] {
      StrLessTotal(a[1..], b[1..]);
      if a[1..] == b[1..] {
        assert a == [a[0]] + a[1..] && b == [b[0]] + b[1..];
      }
    }
  }

  lemma {:induction false} StrLessAsymmetric(a: string, b: string)
    requires StrLess(a, b)
    ensures !StrLess(b, a)
  {
    if StrLess(b, a) {
      StrLessTransitive(a, b, a);
      StrLessIrreflexive(a);
    }
  }

  /** JavaScript's `s.split(sep)` for a one-character separator. */
  function Split(s: string, sep: char): (parts: seq<string>)
    ensures |parts| >= 1
    ensures forall i :: 0 <= i < |parts| ==> sep !in parts[i]
    decreases |s|
  {
    if |s| == 0 then [""]
    else
      var rest := Split(s[1..], sep);
      if s[0] == sep then [""] + rest
      else [[s[0]] + rest[0]] + rest[1..]
  }

  /** `parts.join(sep)`. */
  function Join(parts: seq<string>, sep: char): (s: string)
    requires |parts| >= 1
    decreases |parts|
  {
    if |parts| == 1 then parts[0] else parts[0] + [sep] + Join(parts[1..], sep)
  }

  /** Splitting loses nothing: joining the parts gives the string back. */
  lemma {:induction false} SplitJoin(s: string, sep: char)
    ensures Join(Split(s, sep), sep) == s
    decreases |s|
  {
    if |s| > 0 {
      SplitJoin(s[1..], sep);
      var rest := Split(s[1..], sep);
      if s[0] != sep {
        if |rest| == 1 {
          assert Split(s, sep) == [[s[0]] + rest[0]];
        } else {
          var parts := Split(s, sep);
          assert parts[1..] == rest[1..];
          assert Join(rest, sep) == rest[0] + [sep] + Join(rest[1..], sep);
        }
      } else {
        assert Split(s, sep)[1..] == rest;
      }
    }
  }

  lemma {:induction false} SplitNoSeparator(s: string, sep: char)
    requires sep !in s
    ensures Split(s, sep) == [s]
    decreases |s|
  {
    if |s| > 0 {
      assert sep !in s[1..];
      SplitNoSeparator(s[1..], sep);
      assert [s[0]] + s[1..] == s;
    }
  }

  /** A prefix without the separator becomes the first part on its own. */
  lemma {:induction false} SplitAfterFirstSeparator(t: string, u: string, sep: char)
    requires sep !in t
    ensures Split(t + [sep] + u, sep) == [t] + Split(u, sep)
    decreases |t|
  {
    if |t| > 0 {
      assert (t + [sep] + u)[1..] == t[1..] + [sep] + u;
      assert sep !in t[1..];
      SplitAfterFirstSeparator(t[1..], u, sep);
      assert [t[0]] + t[1..] == t;
    } else {
      assert t + [sep] + u == [sep] + u;
      assert ([sep] + u)[1..] == u;
    }
  }

  /** `call_cid.split(":")[1]`: undefined (None) when the cid has no colon. */
  function CallCidId(cid: string): (id: Option<string>)
    ensures id.None? <==> ':' !in cid
    ensures id.Some? ==> ':' !in id.value
  {
    var parts := Split(cid, ':');
    SplitJoin(cid, ':');
    if |parts| >= 2 then
      assert Join(parts, ':') == parts[0] + [':'] + Join(parts[1..], ':');
      assert cid[|parts[0]|] == ':';
      Some(parts[1])
    else
      None
  }

  /** The cid `"type:id"` yields `id` whenever neither part holds a colon. */
  lemma {:induction false} CallCidIdOfTypeAndId(callType: string, id: string)
    requires ':' !in callType && ':' !in id
    ensures CallCidId(callType + ":" + id) == Some(id)
  {
    SplitAfterFirstSeparator(callType, id, ':');
    SplitNoSeparator(id, ':');
    assert callType + ":" + id == callType + [':'] + id;
  }

  lemma {:induction false} JoinTwoOrMore(parts: seq<string>, sep: char)
    requires |parts| >= 2
    ensures Join(parts, sep) == parts[0] + [sep] + parts[1] +
                                (if |parts| == 2 then "" else [sep] + Join(parts[2..], sep))
  {
    if |parts| > 2 {
      assert parts[1..][1..] == parts[2..];
    }
  }

  /** Whatever the cid, a defined id is the text between its first and second colon. */
  lemma {:induction false} CallCidIdShape(cid: string)
    requires CallCidId(cid).Some?
    ensures var id := CallCidId(cid).value;
            ':' !in id &&
            exists i :: 0 <= i && i + 1 + |id| <= |cid| && ':' !in cid[..i] && cid[i] == ':' &&
                        cid[i + 1..i + 1 + |id|] == id &&
                        (i + 1 + |id| == |cid| || cid[i + 1 + |id|] == ':')
  {
    var parts := Split(cid, ':');
    SplitJoin(cid, ':');
    JoinTwoOrMore(parts, ':');
    var t, id := parts[0], parts[1];
    var tail := if |parts| == 2 then "" else [':'] + Join(parts[2..], ':');
    assert cid == t + [':'] + id + tail;
    var i := |t|;
    assert cid[..i] == t;
    assert cid[i + 1..i + 1 + |id|] == id;
    assert ':' !in t && cid[i] == ':';
    assert CallCidId(cid).value == id;
    if |parts| > 2 {
      assert cid[i + 1 + |id|] == tail[0] == ':';
    } else {
      assert i + 1 + |id| == |cid|;
    }
  }
}
