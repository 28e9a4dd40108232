/** String helpers (src/string_util.h). */
module StringUtil {
  import opened Wrappers
  import opened Sequences

  /** From its k-th character on, needle is what s has at i. */
  predicate Agrees(s: string, needle: string, i: nat, k: nat)
    requires k <= |needle| && i + |needle| <= |s|
    decreases |needle| - k
  {
    k == |needle| || (s[i + k] == needle[k] && Agrees(s, needle, i, k + 1))
  }

  predicate OccursAt(s: string, needle: string, i: int) {
    0 <= i && i + |needle| <= |s| && Agrees(s, needle, i, 0)
  }

  lemma {:induction false} AgreesIs(s: string, needle: string, i: nat, k: nat)
    requires k <= |needle| && i + |needle| <= |s|
    ensures Agrees(s, needle, i, k) <==> s[i + k..i + |needle|] == needle[k..]
    decreases |needle| - k
  {
    if k < |needle| {
      AgreesIs(s, needle, i, k + 1);
      assert s[i + k..i + |needle|] == [s[i + k]] + s[i + k + 1..i + |needle|];
      assert needle[k..] == [needle[k]] + needle[k + 1..];
    }
  }

  lemma {:induction false} OccursIs(s: string, needle: string, i: int)
    ensures OccursAt(s, needle, i) <==> 0 <= i && i + |needle| <= |s| && s[i..i + |needle|] == needle
  {
    if 0 <= i && i + |needle| <= |s| {
      AgreesIs(s, needle, i, 0);
    }
  }

  /** The first place at or after start where needle occurs, as std::string::find gives it. */
  function Find(s: string, needle: string, start: nat): (r: Option<nat>)
    requires start <= |s|
    ensures r.Some? ==> start <= r.value && OccursAt(s, needle, r.value)
    ensures forall i :: start <= i && OccursAt(s, needle, i) ==> r.Some? && r.value <= i
    decreases |s| - start
  {
    if OccursAt(s, needle, start) then Some(start)
    else if start == |s| then None
    else Find(s, needle, start + 1)
  }

  lemma {:induction false} OccursShift(a: string, b: string, needle: string, i: nat)
    ensures OccursAt(a + b, needle, |a| + i) <==> OccursAt(b, needle, i)
  {
    OccursIs(a + b, needle, |a| + i);
    OccursIs(b, needle, i);
    if i + |needle| <= |b| {
      Windows(a, b, i, i + |needle|);
    }
  }

  /** Searching from where a tail starts is searching the tail. */
  lemma {:induction false} FindShift(a: string, b: string, needle: string)
    ensures Find(a + b, needle, |a|)
         == match Find(b, needle, 0) case None => None case Some(i) => Some(|a| + i)
  {
    var whole, tail := Find(a + b, needle, |a|), Find(b, needle, 0);
    if whole.Some? {
      OccursShift(a, b, needle, whole.value - |a|);
    }
    if tail.Some? {
      OccursShift(a, b, needle, tail.value);
    }
  }

  function Split(s: string, delimiter: string): (pieces: seq<string>)
    requires delimiter != ""
    ensures pieces != []
    decreases |s|
  {
    match Find(s, delimiter, 0)
    case None => [s]
    case Some(i) => [s[..i]] + Split(s[i + |delimiter|..], delimiter)
  }

  function Join(pieces: seq<string>, glue: string): string
    requires pieces != []
  {
    if |pieces| == 1 then pieces[0] else pieces[0] + glue + Join(pieces[1..], glue)
  }

  lemma {:induction false} FoundSplits(s: string, needle: string)
    requires Find(s, needle, 0).Some?
    ensures var i := Find(s, needle, 0).value;
      i + |needle| <= |s| && s == s[..i] + (needle + s[i + |needle|..])
  {
    OccursIs(s, needle, Find(s, needle, 0).value);
  }

  lemma {:induction false} JoinCons(piece: string, pieces: seq<string>, glue: string)
    requires pieces != []
    ensures Join([piece] + pieces, glue) == piece + glue + Join(pieces, glue)
  {
    assert ([piece] + pieces)[1..] == pieces;
  }

  /** What follows the last glue can be put on later. */
  lemma {:induction false} JoinEnd(pieces: seq<string>, last: string, glue: string)
    ensures Join(pieces + [last], glue) == Join(pieces + [""], glue) + last
    ensures Join(pieces + [last] + [""], glue) == Join(pieces + [last], glue) + glue
  {
    if pieces == [] {
      assert pieces + [last] == [last] && pieces + [""] == [""];
      JoinCons(last, [""], glue);
    } else {
      var first, rest := pieces[0], pieces[1..];
      JoinEnd(rest, last, glue);
      assert pieces + [last] == [first] + (rest + [last]);
      assert pieces + [""] == [first] + (rest + [""]);
      assert pieces + [last] + [""] == [first] + (rest + [last] + [""]);
      JoinCons(first, rest + [last], glue);
      JoinCons(first, rest + [""], glue);
      JoinCons(first, rest + [last] + [""], glue);
      Regroup(first + glue, Join(rest + [""], glue), last);
      Regroup(first + glue, Join(rest + [last], glue), glue);
    }
  }

  /** std::string::replace. */
  function Splice(s: string, pos: nat, width: nat, to: string): string
    requires pos + width <= |s|
  {
    s[..pos] + to + s[pos + width..]
  }

  /** How far a scan of s is: done is behind the cursor, the rest ahead, and pieces were cut off. */
  datatype Scan = Scan(done: string, rest: string, pieces: seq<string>)

  ghost predicate Splitting(s: string, delimiter: string, scan: Scan)
    requires delimiter != ""
  {
    scan.pieces + Split(scan.rest, delimiter) == Split(s, delimiter)
  }

  ghost predicate Replacing(s: string, from: string, to: string, scan: Scan)
    requires from != ""
  {
    Splitting(s, from, scan) && scan.done == Join(scan.pieces + [""], to)
  }

  /** The scan behind the delimiter at i, with put in its place. */
  function Past(scan: Scan, i: nat, delimiter: string, put: string): Scan
    requires i + |delimiter| <= |scan.rest|
  {
    Scan(scan.done + scan.rest[..i] + put, scan.rest[i + |delimiter|..], scan.pieces + [scan.rest[..i]])
  }

  lemma {:induction false} SplitFirst(rest: string, delimiter: string, i: nat)
    requires delimiter != "" && Find(rest, delimiter, 0) == Some(i)
    ensures Split(rest, delimiter) == [rest[..i]] + Split(rest[i + |delimiter|..], delimiter)
  {
  }

  /** Replacing an occurrence by itself changes nothing. */
  lemma {:induction false} PutBack(s: string, delimiter: string, pos: nat)
    requires OccursAt(s, delimiter, pos)
    ensures Splice(s, pos, |delimiter|, delimiter) == s
  {
    OccursIs(s, delimiter, pos);
  }

  lemma {:induction false} SplitTurn(s: string, delimiter: string, scan: Scan, i: nat, put: string)
    requires delimiter != "" && Splitting(s, delimiter, scan) && Find(scan.rest, delimiter, 0) == Some(i)
    ensures Splitting(s, delimiter, Past(scan, i, delimiter, put))
  {
    SplitFirst(scan.rest, delimiter, i);
    Regroup(scan.pieces, [scan.rest[..i]], Split(scan.rest[i + |delimiter|..], delimiter));
  }

  lemma {:induction false} SplitEnd(s: string, delimiter: string, scan: Scan)
    requires delimiter != "" && Splitting(s, delimiter, scan) && Find(scan.rest, delimiter, 0) == None
    ensures scan.pieces + [(scan.done + scan.rest)[|scan.done|..]] == Split(s, delimiter)
  {
    Windows(scan.done, scan.rest, 0, 0);
  }

  lemma {:induction false} ReplaceTurn(s: string, from: string, to: string, scan: Scan, i: nat)
    requires from != "" && Replacing(s, from, to, scan) && Find(scan.rest, from, 0) == Some(i)
    ensures Replacing(s, from, to, Past(scan, i, from, to))
  {
    SplitTurn(s, from, scan, i, to);
    JoinEnd(scan.pieces, scan.rest[..i], to);
  }

  lemma {:induction false} ReplaceEnd(s: string, from: string, to: string, scan: Scan)
    requires from != "" && Replacing(s, from, to, scan) && Find(scan.rest, from, 0) == None
    ensures scan.done + scan.rest == Join(Split(s, from), to)
  {
    JoinEnd(scan.pieces, scan.rest, to);
  }

  lemma {:induction false} PastSplices(scan: Scan, i: nat, delimiter: string, put: string)
    requires i + |delimiter| <= |scan.rest|
    ensures var next := Past(scan, i, delimiter, put);
      Splice(scan.done + scan.rest, |scan.done| + i, |delimiter|, put) == next.done + next.rest
      && |next.done| == |scan.done| + i + |put| && |next.rest| == |scan.rest| - i - |delimiter|
      && next.pieces == scan.pieces + [(scan.done + scan.rest)[|scan.done|..|scan.done| + i]]
  {
    Windows(scan.done, scan.rest, i, i + |delimiter|);
    Windows(scan.done, scan.rest, 0, i);
  }

  /** One turn of SplitString. */
  lemma {:induction false} SplitStep(s: string, delimiter: string, scan: Scan, i: nat) returns (next: Scan)
    requires delimiter != "" && s == scan.done + scan.rest && Splitting(s, delimiter, scan)
    requires Find(scan.rest, delimiter, 0) == Some(i)
    ensures Splitting(s, delimiter, next) && s == next.done + next.rest
    ensures |next.done| == |scan.done| + i + |delimiter| && |next.rest| < |scan.rest|
    ensures next.pieces == scan.pieces + [s[|scan.done|..|scan.done| + i]]
  {
    next := Past(scan, i, delimiter, delimiter);
    SplitTurn(s, delimiter, scan, i, delimiter);
    PastSplices(scan, i, delimiter, delimiter);
    OccursShift(scan.done, scan.rest, delimiter, i);
    PutBack(s, delimiter, |scan.done| + i);
  }

  /** One turn of ReplaceAll. */
  lemma {:induction false} ReplaceStep(s: string, from: string, to: string, str: string, scan: Scan, i: nat)
      returns (next: Scan)
    requires from != "" && str == scan.done + scan.rest && Replacing(s, from, to, scan)
    requires Find(scan.rest, from, 0) == Some(i)
    ensures Replacing(s, from, to, next) && Splice(str, |scan.done| + i, |from|, to) == next.done + next.rest
    ensures |next.done| == |scan.done| + i + |to| && |next.rest| < |scan.rest|
  {
    next := Past(scan, i, from, to);
    ReplaceTurn(s, from, to, scan, i);
    PastSplices(scan, i, from, to);
  }

  /** The cursor of the scan is where std::string::find goes on. */
  lemma {:induction false} FindAhead(str: string, delimiter: string, scan: Scan)
    requires str == scan.done + scan.rest
    ensures var found := Find(str, delimiter, |scan.done|);
      found.Some? ==> found.value + |delimiter| <= |str|
                      && Find(scan.rest, delimiter, 0) == Some(found.value - |scan.done|)
    ensures Find(str, delimiter, |scan.done|).None? ==> Find(scan.rest, delimiter, 0) == None
  {
    FindShift(scan.done, scan.rest, delimiter);
  }

  /** What the next std::string::find of SplitString tells: the end, or the scan behind the next delimiter. */
  lemma {:induction false} SplitNext(s: string, delimiter: string, scan: Scan) returns (next: Scan)
    requires delimiter != "" && s == scan.done + scan.rest && Splitting(s, delimiter, scan)
    ensures var last, found := |scan.done|, Find(s, delimiter, |scan.done|);
      if found.None? then scan.pieces + [s[last..]] == Split(s, delimiter)
      else
        found.value + |delimiter| == |next.done| && s == next.done + next.rest && |next.rest| < |scan.rest|
        && next.pieces == scan.pieces + [s[last..found.value]] && Splitting(s, delimiter, next)
  {
    next := scan;
    FindAhead(s, delimiter, scan);
    var found := Find(s, delimiter, |scan.done|);
    if found.None? {
      SplitEnd(s, delimiter, scan);
    } else {
      next := SplitStep(s, delimiter, scan, found.value - |scan.done|);
    }
  }

  /** What the next std::string::find of ReplaceAll tells: the end, or the scan behind what was put in. */
  lemma {:induction false} ReplaceNext(s: string, from: string, to: string, str: string, scan: Scan)
      returns (next: Scan)
    requires from != "" && str == scan.done + scan.rest && Replacing(s, from, to, scan)
    ensures var found := Find(str, from, |scan.done|);
      if found.None? then str == Join(Split(s, from), to)
      else
        found.value + |from| <= |str| && found.value + |to| == |next.done| && |next.rest| < |scan.rest|
        && Splice(str, found.value, |from|, to) == next.done + next.rest && Replacing(s, from, to, next)
  {
    next := scan;
    FindAhead(str, from, scan);
    var found := Find(str, from, |scan.done|);
    if found.None? {
      ReplaceEnd(s, from, to, scan);
    } else {
      next := ReplaceStep(s, from, to, str, scan, found.value - |scan.done|);
    }
  }

  /**
   * Replacing in place is splitting at from and joining with to. The cursor skips what was put in, so the
   * loop ends even when to contains from.
   */
  method ReplaceAll(s: string, from: string, to: string) returns (str: string)
    ensures str == if from == "" then s else Join(Split(s, from), to)
  {
    str := s;
    if from == "" {
      return;
    }
    var startPos := 0;
    ghost var scan := Scan("", s, []);
    while true
      invariant startPos == |scan.done| && str == scan.done + scan.rest
      invariant Replacing(s, from, to, scan)
      decreases |scan.rest|
    {
      scan := ReplaceNext(s, from, to, str, scan);
      var found := Find(str, from, startPos);
      if found.None? {
        return;
      }
      str := Splice(str, found.value, |from|, to);
      startPos := found.value + |to|;
    }
  }

  /** std::string::find meets no empty delimiter here: it would match at every place and the loop would not end. */
  method SplitString(s: string, delimiter: string) returns (result: seq<string>)
    requires delimiter != ""
    ensures result == Split(s, delimiter)
  {
    result := [];
    var last := 0;
    ghost var scan := Scan("", s, []);
    while true
      invariant last == |scan.done| && s == scan.done + scan.rest && result == scan.pieces
      invariant Splitting(s, delimiter, scan)
      decreases |scan.rest|
    {
      scan := SplitNext(s, delimiter, scan);
      var next := Find(s, delimiter, last);
      if next.None? {
        result := result + [s[last..]];
        return;
      }
      result := result + [s[last..next.value]];
      last := next.value + |delimiter|;
    }
  }

  /** For an empty delimiter the next cut is where the last one was, so the loop of split_string does not get on. */
  lemma {:induction false} EmptyDelimiterStays(s: string, last: nat)
    requires last <= |s|
    ensures Find(s, "", last) == Some(last) && last + |""| == last
  {
    OccursIs(s, "", last);
  }

  /** Joining with the delimiter undoes splitting. */
  lemma {:induction false} JoinUndoesSplit(s: string, delimiter: string)
    requires delimiter != ""
    ensures Join(Split(s, delimiter), delimiter) == s
    decreases |s|
  {
    var found := Find(s, delimiter, 0);
    if found.Some? {
      var rest := s[found.value + |delimiter|..];
      JoinUndoesSplit(rest, delimiter);
      JoinCons(s[..found.value], Split(rest, delimiter), delimiter);
      FoundSplits(s, delimiter);
      Regroup(s[..found.value], delimiter, rest);
    }
  }

  /** Each piece runs up to the first delimiter after it; the last has none. */
  ghost predicate SplitApart(pieces: seq<string>, delimiter: string) {
    if pieces == [] then false
    else if |pieces| == 1 then Find(pieces[0], delimiter, 0) == None
    else Find(pieces[0] + delimiter, delimiter, 0) == Some(|pieces[0]|) && SplitApart(pieces[1..], delimiter)
  }

  lemma {:induction false} OccursInFront(a: string, b: string, needle: string, i: nat)
    requires i + |needle| <= |a|
    ensures OccursAt(a + b, needle, i) <==> OccursAt(a, needle, i)
  {
    OccursIs(a + b, needle, i);
    OccursIs(a, needle, i);
    assert (a + b)[i..i + |needle|] == a[i..i + |needle|];
  }

  /** What is found in the front of a string is found first in the whole of it. */
  lemma {:induction false} FindInFront(a: string, b: string, needle: string)
    requires Find(a, needle, 0).Some?
    ensures Find(a + b, needle, 0) == Find(a, needle, 0)
  {
    var front := Find(a, needle, 0).value;
    OccursInFront(a, b, needle, front);
    var whole := Find(a + b, needle, 0).value;
    OccursInFront(a, b, needle, whole);
  }

  /** Cutting a string behind its first delimiter does not move that delimiter. */
  lemma {:induction false} FirstStaysFirst(s: string, needle: string)
    requires Find(s, needle, 0).Some?
    ensures Find(s[..Find(s, needle, 0).value] + needle, needle, 0) == Find(s, needle, 0)
  {
    var i := Find(s, needle, 0).value;
    var front, rest := s[..i] + needle, s[i + |needle|..];
    FoundSplits(s, needle);
    Regroup(s[..i], needle, rest);
    OccursInFront(front, rest, needle, i);
    FindInFront(front, rest, needle);
  }

  /** Splitting cuts at the leftmost delimiters. */
  lemma {:induction false} SplitCutsLeftmost(s: string, delimiter: string)
    requires delimiter != ""
    ensures SplitApart(Split(s, delimiter), delimiter)
    decreases |s|
  {
    var found := Find(s, delimiter, 0);
    if found.Some? {
      var rest := s[found.value + |delimiter|..];
      SplitCutsLeftmost(rest, delimiter);
      assert Split(s, delimiter)[1..] == Split(rest, delimiter);
      FirstStaysFirst(s, delimiter);
    }
  }

  /** Splitting undoes joining for exactly the pieces that splitting can give. */
  lemma {:induction false} SplitUndoesJoin(pieces: seq<string>, delimiter: string)
    requires delimiter != "" && pieces != []
    ensures SplitApart(pieces, delimiter) <==> Split(Join(pieces, delimiter), delimiter) == pieces
    decreases |pieces|
  {
    SplitCutsLeftmost(Join(pieces, delimiter), delimiter);
    if |pieces| > 1 && SplitApart(pieces, delimiter) {
      var rest := Join(pieces[1..], delimiter);
      SplitUndoesJoin(pieces[1..], delimiter);
      FindInFront(pieces[0] + delimiter, rest, delimiter);
      var s := Join(pieces, delimiter);
      assert s[..|pieces[0]|] == pieces[0];
      assert s[|pieces[0]| + |delimiter|..] == rest;
    }
  }

  predicate Blank(c: char) { c in ['\t', '\n', '\U{000B}', '\U{000C}', '\r', ' '] }

  /** Tab, line feed, vertical tab, form feed, carriage return and space. */
  lemma {:induction false} BlanksAre(c: char)
    ensures Blank(c) <==> c as int == 32 || 9 <= c as int <= 13
  {
  }

  ghost predicate AllBlank(s: string) { forall k :: 0 <= k < |s| ==> Blank(s[k]) }

  function LTrim(s: string): string { if s != "" && Blank(s[0]) then LTrim(s[1..]) else s }

  function RTrim(s: string): string { if s != "" && Blank(s[|s| - 1]) then RTrim(s[..|s| - 1]) else s }

  function Trim(s: string): string { LTrim(RTrim(s)) }

  /** Nothing, or text with no white space at either end. */
  ghost predicate Tight(s: string) { s == "" || (!Blank(s[0]) && !Blank(s[|s| - 1])) }

  lemma {:induction false} LTrimCuts(s: string) returns (left: string)
    ensures s == left + LTrim(s) && AllBlank(left)
    ensures LTrim(s) != "" ==> !Blank(LTrim(s)[0])
  {
    left := "";
    if s != "" && Blank(s[0]) {
      var more := LTrimCuts(s[1..]);
      left := [s[0]] + more;
    }
  }

  lemma {:induction false} RTrimCuts(s: string) returns (right: string)
    ensures s == RTrim(s) + right && AllBlank(right)
    ensures RTrim(s) != "" ==> !Blank(RTrim(s)[|RTrim(s)| - 1])
  {
    right := "";
    if s != "" && Blank(s[|s| - 1]) {
      var more := RTrimCuts(s[..|s| - 1]);
      right := more + [s[|s| - 1]];
    }
  }

  lemma {:induction false} LTrimStops(left: string, s: string)
    requires AllBlank(left) && (s == "" || !Blank(s[0]))
    ensures LTrim(left + s) == s
  {
    if left != "" {
      LTrimStops(left[1..], s);
      assert (left + s)[1..] == left[1..] + s;
    } else {
      assert left + s == s;
    }
  }

  lemma {:induction false} RTrimStops(s: string, right: string)
    requires AllBlank(right) && (s == "" || !Blank(s[|s| - 1]))
    ensures RTrim(s + right) == s
  {
    if right != "" {
      RTrimStops(s, right[..|right| - 1]);
      assert (s + right)[..|s + right| - 1] == s + right[..|right| - 1];
    } else {
      assert s + right == s;
    }
  }

  /** Trimming gives t exactly when t is tight and s is t with white space around it. */
  lemma {:induction false} TrimsTo(left: string, t: string, right: string)
    requires AllBlank(left) && AllBlank(right)
    ensures Tight(t) <==> Trim(left + t + right) == t
  {
    var s := left + t + right;
    if Tight(t) {
      if t == "" {
        assert left + t == left && s == "" + (left + right);
        RTrimStops("", left + right);
      } else {
        RTrimStops(left + t, right);
        LTrimStops(left, t);
      }
    }
    if Trim(s) == t {
      var r := RTrimCuts(s);
      var l := LTrimCuts(RTrim(s));
      assert t != "" ==> t[|t| - 1] == RTrim(s)[|RTrim(s)| - 1];
    }
  }
}
