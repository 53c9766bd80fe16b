/**
 * Path labels for metrics (backend/routers/errors.py, _normalize_path): one left-to-right
 * substitution of hyphenated UUIDs by a placeholder.
 */
module PathNormalizer {

  predicate IsHex(c: char) {
    '0' <= c <= '9' || 'a' <= c <= 'f' || 'A' <= c <= 'F'
  }

  /** The 8-4-4-4-12 shape of the regular expression. */
  predicate IsUuid(s: string) {
    && |s| == 36
    && forall k :: 0 <= k < 36 ==> if k == 8 || k == 13 || k == 18 || k == 23 then s[k] == '-' else IsHex(s[k])
  }

  predicate UuidAt(s: string, i: int) {
    0 <= i && i + 36 <= |s| && IsUuid(s[i..i + 36])
  }

  ghost predicate UuidFree(s: string) {
    forall i :: !UuidAt(s, i)
  }

  const PLACEHOLDER := "<uuid>"

  /** `re.sub`: leftmost match first, the search resumes after the match. */
  function Normalize(path: string): string {
    if path == "" then ""
    else if UuidAt(path, 0) then PLACEHOLDER + Normalize(path[36..])
    else [path[0]] + Normalize(path[1..])
  }

  // ---- no UUID survives ------------------------------------------------------

  /** Output up to the first placeholder is a verbatim copy of the input. */
  lemma {:induction false} CopiedUpToPlaceholder(path: string, n: nat)
    requires n <= |Normalize(path)| && '<' !in Normalize(path)[..n]
    ensures n <= |path| && Normalize(path)[..n] == path[..n]
  {
    var out := Normalize(path);
    if n > 0 {
      assert out[0] in out[..n];
      assert !UuidAt(path, 0);
      assert out[1..] == Normalize(path[1..]);
      assert out[1..][..n - 1] == out[..n][1..];
      CopiedUpToPlaceholder(path[1..], n - 1);
      assert out[..n] == [out[0]] + out[1..][..n - 1];
    }
  }

  /** A UUID is made of digits and hyphens, so no window over another character is one. */
  lemma OtherCharacterBreaksUuid(s: string, i: int, k: int)
    requires 0 <= i <= k < i + 36 && k < |s| && !IsHex(s[k]) && s[k] != '-'
    ensures !UuidAt(s, i)
  {
  }

  lemma UuidAtShifts(front: string, rest: string, i: int)
    requires |front| <= i
    ensures UuidAt(front + rest, i) == UuidAt(rest, i - |front|)
  {
    assert i + 36 <= |front + rest| ==> (front + rest)[i..i + 36] == rest[i - |front|..i - |front| + 36];
  }

  /** No 36-character window of the output is a UUID, not even across a replacement. */
  lemma {:induction false} NoUuidSurvives(path: string)
    ensures UuidFree(Normalize(path))
  {
    var out := Normalize(path);
    if UuidAt(path, 0) {
      NoUuidSurvives(path[36..]);
      forall i ensures !UuidAt(out, i) {
        if 0 <= i < 6 {
          OtherCharacterBreaksUuid(out, i, 5);
        } else if 6 <= i {
          UuidAtShifts(PLACEHOLDER, Normalize(path[36..]), i);
        }
      }
    } else if path != "" {
      NoUuidSurvives(path[1..]);
      forall i ensures !UuidAt(out, i) {
        if 0 < i {
          UuidAtShifts([path[0]], Normalize(path[1..]), i);
        } else if i == 0 && 36 <= |out| {
          if '<' in out[..36] {
            var k :| 0 <= k < 36 && out[..36][k] == '<';
            OtherCharacterBreaksUuid(out, 0, k);
          } else {
            CopiedUpToPlaceholder(path, 36);
            assert out[0..36] == path[0..36];
          }
        }
      }
    }
  }

  lemma {:induction false} UuidFreeIsKept(path: string)
    requires UuidFree(path)
    ensures Normalize(path) == path
  {
    if path != "" {
      assert path == [path[0]] + path[1..];
      forall i ensures !UuidAt(path[1..], i) {
        if 0 <= i {
          UuidAtShifts([path[0]], path[1..], i + 1);
        }
      }
      assert !UuidAt(path, 0);
      UuidFreeIsKept(path[1..]);
    }
  }

  /** Exactly the paths without a UUID are left alone, so normalising twice changes nothing. */
  lemma FixedPointsAndIdempotence(path: string)
    ensures Normalize(path) == path <==> UuidFree(path)
    ensures Normalize(Normalize(path)) == Normalize(path)
  {
    NoUuidSurvives(path);
    UuidFreeIsKept(Normalize(path));
    if UuidFree(path) {
      UuidFreeIsKept(path);
    }
  }

  // ---- segments --------------------------------------------------------------

  /** A character that no UUID contains, such as a slash, sets a path apart: its two sides are normalised on their
      own. */
  lemma {:induction false} SeparatorSplits(a: string, c: char, b: string)
    requires !IsHex(c) && c != '-'
    ensures Normalize(a + [c] + b) == Normalize(a) + [c] + Normalize(b)
  {
    var text := a + [c] + b;
    if a == "" {
      OtherCharacterBreaksUuid(text, 0, 0);
      assert text[1..] == b;
    } else {
      MatchStaysBefore(a, c, b);
      if UuidAt(a, 0) {
        assert text[36..] == a[36..] + [c] + b;
        SeparatorSplits(a[36..], c, b);
      } else {
        assert text[1..] == a[1..] + [c] + b;
        SeparatorSplits(a[1..], c, b);
      }
    }
  }

  lemma MatchStaysBefore(a: string, c: char, b: string)
    requires !IsHex(c) && c != '-'
    ensures UuidAt(a + [c] + b, 0) <==> UuidAt(a, 0)
  {
    var text := a + [c] + b;
    if |a| < 36 {
      if 36 <= |text| {
        OtherCharacterBreaksUuid(text, 0, |a|);
      }
    } else {
      assert text[0..36] == a[0..36];
    }
  }

  /** Digits of either case, as many as said. */
  predicate AreDigits(s: string, n: nat) {
    |s| == n && forall i :: 0 <= i < n ==> '0' <= s[i] <= '9' || 'a' <= s[i] <= 'f' || 'A' <= s[i] <= 'F'
  }

  /** Five groups of 8, 4, 4, 4 and 12 digits, joined by hyphens, come out as the placeholder; what follows them is
      normalised on its own, and so is what comes before a slash or other separator. */
  lemma UuidComesOut(front: string, separator: char, a: string, b: string, c: string, d: string, e: string,
                     back: string)
    requires AreDigits(a, 8) && AreDigits(b, 4) && AreDigits(c, 4) && AreDigits(d, 4) && AreDigits(e, 12)
    requires !IsHex(separator) && separator != '-'
    ensures var uuid := a + "-" + b + "-" + c + "-" + d + "-" + e;
            && Normalize(uuid + back) == "<uuid>" + Normalize(back)
            && Normalize(front + [separator] + uuid + back)
            == Normalize(front) + [separator] + "<uuid>" + Normalize(back)
  {
    var uuid := a + "-" + b + "-" + c + "-" + d + "-" + e;
    GroupsAreUuid(a, b, c, d, e);
    assert (uuid + back)[0..36] == uuid && (uuid + back)[36..] == back;
    SeparatorSplits(front, separator, uuid + back);
    assert front + [separator] + uuid + back == front + [separator] + (uuid + back);
  }

  lemma GroupsAreUuid(a: string, b: string, c: string, d: string, e: string)
    requires AreDigits(a, 8) && AreDigits(b, 4) && AreDigits(c, 4) && AreDigits(d, 4) && AreDigits(e, 12)
    ensures IsUuid(a + "-" + b + "-" + c + "-" + d + "-" + e)
  {
    var uuid := a + "-" + b + "-" + c + "-" + d + "-" + e;
    forall k | 0 <= k < 36 && k != 8 && k != 13 && k != 18 && k != 23 ensures IsHex(uuid[k]) {
      if k < 8 {
        assert uuid[k] == a[k];
      } else if k < 13 {
        assert uuid[k] == b[k - 9];
      } else if k < 18 {
        assert uuid[k] == c[k - 14];
      } else if k < 23 {
        assert uuid[k] == d[k - 19];
      } else {
        assert uuid[k] == e[k - 24];
      }
    }
  }

  // ---- what is replaced, and what is kept ------------------------------------

  /** One stretch of the input: a character copied, or a UUID replaced. */
  datatype Piece = Kept(c: char) | Replaced(uuid: string)

  function Before(pieces: seq<Piece>): string {
    if pieces == [] then ""
    else (match pieces[0] case Kept(c) => [c] case Replaced(u) => u) + Before(pieces[1..])
  }

  function After(pieces: seq<Piece>): string {
    if pieces == [] then ""
    else (match pieces[0] case Kept(c) => [c] case Replaced(_) => PLACEHOLDER) + After(pieces[1..])
  }

  /** Pieces a leftmost, non-overlapping search produces: replaced stretches are UUIDs,
      and no UUID starts at a kept character. */
  predicate Leftmost(pieces: seq<Piece>) {
    forall i :: 0 <= i < |pieces| ==>
      match pieces[i]
      case Kept(_) => !UuidAt(Before(pieces[i..]), 0)
      case Replaced(u) => IsUuid(u)
  }

  lemma EmptyCut(pieces: seq<Piece>)
    requires Leftmost(pieces)
    ensures Before(pieces) == "" <==> pieces == []
  {
  }

  lemma CutTail(pieces: seq<Piece>)
    requires Leftmost(pieces) && pieces != []
    ensures Leftmost(pieces[1..])
    ensures var text := Before(pieces);
            if UuidAt(text, 0) then pieces[0] == Replaced(text[..36]) && Before(pieces[1..]) == text[36..]
            else text != "" && pieces[0] == Kept(text[0]) && Before(pieces[1..]) == text[1..]
  {
  }

  /** Normalising is a leftmost cut with every UUID piece rendered as the placeholder and
      everything else kept, in the same order. */
  lemma {:induction false} NormalizeIsLeftmostCut(pieces: seq<Piece>)
    requires Leftmost(pieces)
    ensures Normalize(Before(pieces)) == After(pieces)
  {
    if pieces != [] {
      CutTail(pieces);
      EmptyCut(pieces);
      NormalizeIsLeftmostCut(pieces[1..]);
    }
  }

  lemma OnePieceMore(first: Piece, rest: seq<Piece>)
    requires Leftmost(rest)
    requires match first case Kept(_) => !UuidAt(Before([first] + rest), 0) case Replaced(u) => IsUuid(u)
    ensures Leftmost([first] + rest)
  {
    var pieces := [first] + rest;
    forall i | 0 <= i < |pieces|
      ensures match pieces[i] case Kept(_) => !UuidAt(Before(pieces[i..]), 0) case Replaced(u) => IsUuid(u)
    {
      if i == 0 {
        assert pieces[0..] == pieces;
      } else {
        assert pieces[i] == rest[i - 1] && pieces[i..] == rest[i - 1..];
      }
    }
  }

  lemma {:induction false} LeftmostCutExists(path: string) returns (pieces: seq<Piece>)
    ensures Leftmost(pieces) && Before(pieces) == path && After(pieces) == Normalize(path)
  {
    pieces := [];
    if path != "" {
      var first := if UuidAt(path, 0) then Replaced(path[..36]) else Kept(path[0]);
      var rest := LeftmostCutExists(if UuidAt(path, 0) then path[36..] else path[1..]);
      pieces := [first] + rest;
      assert pieces[1..] == rest;
      assert Before(pieces) == path;
      assert path[..if UuidAt(path, 0) then 36 else 1] == if UuidAt(path, 0) then path[0..36] else [path[0]];
      OnePieceMore(first, rest);
    }
  }

  /** Any path can be cut into leftmost pieces in one way only. */
  lemma {:induction false} LeftmostCutIsUnique(a: seq<Piece>, b: seq<Piece>)
    requires Leftmost(a) && Leftmost(b) && Before(a) == Before(b)
    ensures a == b
  {
    if a == [] || b == [] {
      EmptyCut(a);
      EmptyCut(b);
    } else {
      CutTail(a);
      CutTail(b);
      assert Before(a[1..]) == Before(b[1..]);
      LeftmostCutIsUnique(a[1..], b[1..]);
      assert a == [a[0]] + a[1..] && b == [b[0]] + b[1..];
    }
  }

  // ---- UUIDs without hyphens -------------------------------------------------

  /** A UUID written without hyphens: 32 digits in a row. */
  predicate BareAt(s: string, j: int) {
    0 <= j && j + 32 <= |s| && forall k :: j <= k < j + 32 ==> IsHex(s[k])
  }

  /** 32 digits in a row of which no match took any. */
  predicate KeptRun(pieces: seq<Piece>, i: int) {
    0 <= i && i + 32 <= |pieces| && forall k :: i <= k < i + 32 ==> pieces[k].Kept? && IsHex(pieces[k].c)
  }

  /** Digits at the head of the output are kept characters at the head of the cut. */
  lemma {:induction false} DigitsWereKept(pieces: seq<Piece>, n: nat)
    requires n <= |After(pieces)| && forall k :: 0 <= k < n ==> IsHex(After(pieces)[k])
    ensures n <= |pieces| && forall k :: 0 <= k < n ==> pieces[k] == Kept(After(pieces)[k])
  {
    if n > 0 {
      var out := After(pieces);
      assert IsHex(out[0]);
      assert pieces[0].Kept?;
      assert out == [pieces[0].c] + After(pieces[1..]);
      forall k | 0 <= k < n - 1 ensures IsHex(After(pieces[1..])[k]) {
        assert After(pieces[1..])[k] == out[k + 1];
      }
      DigitsWereKept(pieces[1..], n - 1);
      forall k | 0 < k < n ensures pieces[k] == Kept(out[k]) {
        assert pieces[k] == pieces[1..][k - 1];
      }
    }
  }

  lemma {:induction false} KeptIsCopied(pieces: seq<Piece>, n: nat)
    requires n <= |pieces| && forall k :: 0 <= k < n ==> pieces[k].Kept?
    ensures n <= |After(pieces)| && forall k :: 0 <= k < n ==> After(pieces)[k] == pieces[k].c
  {
    if n > 0 {
      KeptIsCopied(pieces[1..], n - 1);
    }
  }

  lemma NothingBareOverPlaceholder(pieces: seq<Piece>, j: nat)
    requires pieces != [] && pieces[0].Replaced? && j < |PLACEHOLDER|
    ensures !BareAt(After(pieces), j)
  {
    var out := After(pieces);
    assert out == PLACEHOLDER + After(pieces[1..]);
    assert out[5] == '>' && !IsHex(out[5]);
  }

  lemma {:induction false} BareCameFromKept(pieces: seq<Piece>, j: nat)
    requires BareAt(After(pieces), j)
    ensures exists i: nat :: KeptRun(pieces, i)
  {
    var width := if pieces[0].Kept? then 1 else |PLACEHOLDER|;
    if j == 0 {
      DigitsWereKept(pieces, 32);
      assert KeptRun(pieces, 0);
    } else if j < width {
      NothingBareOverPlaceholder(pieces, j);
    } else {
      forall k | j - width <= k < j - width + 32 ensures IsHex(After(pieces[1..])[k]) {
        assert After(pieces[1..])[k] == After(pieces)[k + width];
      }
      BareCameFromKept(pieces[1..], j - width);
      var i: nat :| KeptRun(pieces[1..], i);
      assert KeptRun(pieces, i + 1);
    }
  }

  lemma {:induction false} KeptRunStaysBare(pieces: seq<Piece>, i: nat)
    requires KeptRun(pieces, i)
    ensures exists j: nat :: BareAt(After(pieces), j)
  {
    if i == 0 {
      KeptIsCopied(pieces, 32);
      assert BareAt(After(pieces), 0);
    } else {
      assert KeptRun(pieces[1..], i - 1);
      KeptRunStaysBare(pieces[1..], i - 1);
      var j: nat :| BareAt(After(pieces[1..]), j);
      var width := if pieces[0].Kept? then 1 else |PLACEHOLDER|;
      forall k | j + width <= k < j + width + 32 ensures IsHex(After(pieces)[k]) {
        assert After(pieces)[k] == After(pieces[1..])[k - width];
      }
      assert BareAt(After(pieces), j + width);
    }
  }

  /** The in-code comment also promises UUIDs written without hyphens. The output is free of them exactly when
      every 32 digits in a row of the path lose one to a hyphenated match. */
  lemma BareUuidSurvivesExactly(pieces: seq<Piece>)
    requires Leftmost(pieces)
    ensures (exists j: nat :: BareAt(Normalize(Before(pieces)), j)) <==> (exists i: nat :: KeptRun(pieces, i))
  {
    NormalizeIsLeftmostCut(pieces);
    if j: nat :| BareAt(After(pieces), j) {
      BareCameFromKept(pieces, j);
    }
    if i: nat :| KeptRun(pieces, i) {
      KeptRunStaysBare(pieces, i);
    }
  }

  /** Said of the path alone, where no hyphenated UUID is about: every UUID without hyphens is kept as it is. */
  lemma WithoutHyphensNothingIsReplaced(path: string)
    requires UuidFree(path)
    ensures forall j :: BareAt(Normalize(path), j) <==> BareAt(path, j)
  {
    UuidFreeIsKept(path);
  }

  /** One such path. */
  lemma UnhyphenatedUuidIsKept()
    ensures var path := "/runs/550e8400e29b41d4a716446655440000";
            Normalize(path) == path
  {
    var path := "/runs/550e8400e29b41d4a716446655440000";
    forall i ensures !UuidAt(path, i) {
      assert 0 <= i && i + 36 <= |path| ==> path[i..i + 36][8] == path[i + 8];
    }
    UuidFreeIsKept(path);
  }

  lemma ThatPathHasABareUuid()
    ensures BareAt("/runs/550e8400e29b41d4a716446655440000", 6)
  {
  }
}
