/** Scraping the AI reply: the reply is split into lines; from the first line
    that mentions the section's keyword on, every numbered or bulleted line
    is cleaned of its marker and of markdown emphasis and kept, unless it is
    empty or contains the section's own heading words; the first few are
    returned. */
module ReplyText {
  import opened Ledger

  // ---------------------------------------------------------------------
  // Characters and strings
  // ---------------------------------------------------------------------

  /** JavaScript's white space and line terminators (what `trim` removes and
      `\s` matches). */
  predicate IsSpace(c: char)
  {
    var n := c as int;
    n == 0x09 || n == 0x0A || n == 0x0B || n == 0x0C || n == 0x0D || n == 0x20 || n == 0xA0 ||
    n == 0x1680 || (0x2000 <= n <= 0x200A) || n == 0x2028 || n == 0x2029 || n == 0x202F ||
    n == 0x205F || n == 0x3000 || n == 0xFEFF
  }

  /** The characters a regular-expression `.` does not match. */
  predicate IsLineTerminator(c: char)
  {
    c == '\n' || c == '\r' || c as int == 0x2028 || c as int == 0x2029
  }

  /** Drops the leading white space, and nothing else. */
  function TrimStart(s: string): (r: string)
    ensures |r| <= |s| && r == s[|s| - |r|..]
    ensures forall k :: 0 <= k < |s| - |r| ==> IsSpace(s[k])
    ensures r == [] || !IsSpace(r[0])
  {
    if s != [] && IsSpace(s[0]) then
      var r := TrimStart(s[1..]);
      assert forall k :: 1 <= k < |s| - |r| ==> s[k] == s[1..][k - 1];
      r
    else s
  }

  /** Drops the trailing white space, and nothing else. */
  function TrimEnd(s: string): (r: string)
    ensures |r| <= |s| && r == s[..|r|]
    ensures forall k :: |r| <= k < |s| ==> IsSpace(s[k])
    ensures r == [] || !IsSpace(r[|r| - 1])
  {
    if s != [] && IsSpace(s[|s| - 1]) then
      var r := TrimEnd(s[..|s| - 1]);
      assert forall k :: |r| <= k < |s| - 1 ==> s[k] == s[..|s| - 1][k];
      r
    else s
  }

  /** `String.prototype.trim`: a slice of the line that neither starts nor
      ends with white space, everything cut off on either side being white
      space. */
  function Trim(s: string): (r: string)
    ensures r == [] || (!IsSpace(r[0]) && !IsSpace(r[|r| - 1]))
    ensures exists i, j ::
      && 0 <= i <= j <= |s| && r == s[i..j]
      && forall k :: (0 <= k < i || j <= k < |s|) ==> IsSpace(s[k])
  {
    var t := TrimStart(s);
    var r := TrimEnd(t);
    assert r == [] || r[0] == t[0];
    TrimmedSlice(s, t, r, IsSpace);
    r
  }

  /** Cutting characters that pass `cut` off the front and then off the back
      leaves a slice with only such characters outside it. */
  lemma TrimmedSlice(s: string, t: string, r: string, cut: char -> bool)
    requires |t| <= |s| && t == s[|s| - |t|..] && forall k :: 0 <= k < |s| - |t| ==> cut(s[k])
    requires |r| <= |t| && r == t[..|r|] && forall k :: |r| <= k < |t| ==> cut(t[k])
    ensures exists i, j ::
      && 0 <= i <= j <= |s| && r == s[i..j]
      && forall k :: (0 <= k < i || j <= k < |s|) ==> cut(s[k])
  {
    var i := |s| - |t|;
    var j := i + |r|;
    assert r == s[i..j];
    assert forall k :: j <= k < |s| ==> s[k] == t[k - i];
  }

  /** `toLowerCase` on ASCII letters; other characters are kept. */
  function Lower(s: string): (r: string)
    ensures |r| == |s|
  {
    seq(|s|, i requires 0 <= i < |s| => if 'A' <= s[i] <= 'Z' then (s[i] as int + 32) as char else s[i])
  }

  /** `s.includes(sub)` */
  predicate Contains(s: string, sub: string)
  {
    |sub| <= |s| && (s[..|sub|] == sub || Contains(s[1..], sub))
  }

  /** `includes` finds `sub` exactly when it occurs at some position. */
  lemma {:induction false} ContainsMeaning(s: string, sub: string)
    ensures Contains(s, sub) <==> exists i :: 0 <= i <= |s| - |sub| && s[i..][..|sub|] == sub
  {
    if |sub| <= |s| {
      if s[..|sub|] == sub {
        assert s[0..][..|sub|] == sub;
      } else {
        ContainsMeaning(s[1..], sub);
        if exists i :: 0 <= i <= |s| - |sub| && s[i..][..|sub|] == sub {
          var i :| 0 <= i <= |s| - |sub| && s[i..][..|sub|] == sub;
          assert i > 0;
          assert s[1..][i - 1..] == s[i..];
        }
        if Contains(s[1..], sub) {
          var i :| 0 <= i <= |s| - 1 - |sub| && s[1..][i..][..|sub|] == sub;
          assert s[1..][i..] == s[i + 1..];
        }
      }
    }
  }

  // ---------------------------------------------------------------------
  // Lines
  // ---------------------------------------------------------------------

  /** `text.split('\n')` */
  function SplitLines(s: string): (r: seq<string>)
    ensures |r| >= 1
    ensures forall i :: 0 <= i < |r| ==> '\n' !in r[i]
  {
    if s == [] then [""]
    else
      var rest := SplitLines(s[1..]);
      if s[0] == '\n' then [""] + rest else [[s[0]] + rest[0]] + rest[1..]
  }

  /** `lines.join('\n')` */
  function JoinLines(lines: seq<string>): string
    requires |lines| >= 1
  {
    if |lines| == 1 then lines[0] else lines[0] + "\n" + JoinLines(lines[1..])
  }

  /** Splitting loses nothing: joining the lines gives back the reply. */
  lemma {:induction false} SplitJoin(s: string)
    ensures JoinLines(SplitLines(s)) == s
  {
    if s != [] {
      var rest := SplitLines(s[1..]);
      SplitJoin(s[1..]);
      if s[0] == '\n' {
        assert JoinLines([""] + rest) == "" + "\n" + JoinLines(rest) by {
          assert ([""] + rest)[1..] == rest;
        }
      } else {
        var r := [[s[0]] + rest[0]] + rest[1..];
        if |rest| == 1 {
          assert r == [[s[0]] + rest[0]];
        } else {
          assert r[1..] == rest[1..];
          assert JoinLines(rest) == rest[0] + "\n" + JoinLines(rest[1..]);
        }
      }
    }
  }

  // ---------------------------------------------------------------------
  // List items and cleaning
  // ---------------------------------------------------------------------

  predicate IsDigit(c: char) { '0' <= c <= '9' }

  /** Number of leading decimal digits. */
  function LeadingDigits(s: string): (k: nat)
    ensures k <= |s|
    ensures forall i :: 0 <= i < k ==> IsDigit(s[i])
    ensures k < |s| ==> !IsDigit(s[k])
  {
    if s != [] && IsDigit(s[0]) then 1 + LeadingDigits(s[1..]) else 0
  }

  /** `/^\d+\./` */
  predicate IsNumbered(s: string)
  {
    0 < LeadingDigits(s) < |s| && s[LeadingDigits(s)] == '.'
  }

  /** `/^[-•]/` */
  predicate IsBulleted(s: string)
  {
    s != [] && (s[0] == '-' || s[0] == '•')
  }

  /** `/^\d+\.|^[-•]/` on the trimmed line. */
  predicate IsListLine(s: string)
  {
    IsNumbered(s) || IsBulleted(s)
  }

  /** `/^\d+\./` means one or more digits and then a dot, however many digits
      the number has. */
  lemma IsNumberedMeaning(s: string)
    ensures IsNumbered(s) <==> exists k :: 0 < k < |s| && (forall i :: 0 <= i < k ==> IsDigit(s[i])) && s[k] == '.'
  {
    if exists k :: 0 < k < |s| && (forall i :: 0 <= i < k ==> IsDigit(s[i])) && s[k] == '.' {
      var k :| 0 < k < |s| && (forall i :: 0 <= i < k ==> IsDigit(s[i])) && s[k] == '.';
      var d := LeadingDigits(s);
      if d != k {
        assert false;
      }
    }
  }

  /** The marker removal on a trimmed list line (the first match of "digits
      and a dot at the start" or "a bullet with the white space around it"):
      the number and its dot, or the bullet and the white space after it. */
  function StripMarker(s: string): string
  {
    if IsNumbered(s) then s[LeadingDigits(s) + 1..]
    else if IsBulleted(s) then TrimStart(s[1..])
    else s
  }

  /** Where the closing marker `m` first occurs in `t` before any line end. */
  function CloseAt(t: string, m: string): (r: Option<nat>)
    requires |m| > 0
    ensures r.Some? ==> r.value + |m| <= |t| && t[r.value..r.value + |m|] == m
  {
    if |t| < |m| then None
    else if t[..|m|] == m then Some(0)
    else if IsLineTerminator(t[0]) then None
    else
      match CloseAt(t[1..], m)
      case Some(k) => Some(k + 1)
      case None => None
  }

  /** The global lazy replacement of a marked span by its text, for the marker
      M (two asterisks or one): each opening
      marker with a closing one later on the same line is dropped together
      with the first such closing marker, keeping the text between. */
  function StripPairs(s: string, m: string): (r: string)
    requires |m| > 0
    ensures |r| <= |s|
    decreases |s|
  {
    if |s| < |m| then s
    else if s[..|m|] == m && CloseAt(s[|m|..], m).Some? then
      var k := CloseAt(s[|m|..], m).value;
      s[|m|..|m| + k] + StripPairs(s[|m| + k + |m|..], m)
    else [s[0]] + StripPairs(s[1..], m)
  }

  /** Text without the marker's first character is left as it is. */
  lemma {:induction false} StripPairsPlain(s: string, m: string)
    requires |m| > 0 && m[0] !in s
    ensures StripPairs(s, m) == s
    decreases |s|
  {
    if |s| >= |m| {
      assert s[..|m|] != m by { assert s[0] != m[0]; }
      StripPairsPlain(s[1..], m);
      assert s == [s[0]] + s[1..];
    }
  }

  /** The cleaned text of a list line. */
  function Clean(line: string): string
  {
    Trim(StripPairs(StripPairs(StripMarker(Trim(line)), "**"), "*"))
  }

  /** A cleaned item is kept unless it is empty or mentions the exclusion. */
  predicate Keep(item: string, exclusion: string)
  {
    item != [] && !Contains(Lower(item), exclusion)
  }

  // ---------------------------------------------------------------------
  // Section scanning
  // ---------------------------------------------------------------------

  /** The section test: the line, lower-cased, includes the keyword. */
  predicate Mentions(line: string, keyword: string)
  {
    Contains(Lower(line), keyword)
  }

  /** The item a line yields: for a list line, its cleaned text, unless that
      is empty or mentions the exclusion. */
  function ItemOf(line: string, exclusion: string): Option<string>
  {
    if IsListLine(Trim(line)) && Keep(Clean(line), exclusion) then Some(Clean(line)) else None
  }

  function MentionsOf(keyword: string): string -> bool
  {
    (line: string) => Mentions(line, keyword)
  }

  function ItemsOf(exclusion: string): string -> Option<string>
  {
    (line: string) => ItemOf(line, exclusion)
  }

  /** The items a scan collects from `lines` with the section flag starting at
      `inSection`: the flag is set by a line that `mentions` and is never
      cleared, and a line is tested after the flag is updated. */
  function Collect(lines: seq<string>, inSection: bool, mentions: string -> bool, pick: string -> Option<string>): seq<string>
  {
    if lines == [] then []
    else
      var on := inSection || mentions(lines[0]);
      (if on && pick(lines[0]).Some? then [pick(lines[0]).value] else []) + Collect(lines[1..], on, mentions, pick)
  }

  /** The items of `lines`, in order, with no section test. */
  function Candidates(lines: seq<string>, pick: string -> Option<string>): seq<string>
  {
    if lines == [] then []
    else (if pick(lines[0]).Some? then [pick(lines[0]).value] else []) + Candidates(lines[1..], pick)
  }

  /** Index of the first line that `mentions`; |lines| if none does. */
  function FirstMention(lines: seq<string>, mentions: string -> bool): (k: nat)
    ensures k <= |lines|
    ensures forall i :: 0 <= i < k ==> !mentions(lines[i])
    ensures k < |lines| ==> mentions(lines[k])
  {
    if lines == [] then 0
    else if mentions(lines[0]) then 0
    else 1 + FirstMention(lines[1..], mentions)
  }

  /** Once the flag is set, every item is collected. */
  lemma {:induction false} InSectionCollectsAll(lines: seq<string>, mentions: string -> bool, pick: string -> Option<string>)
    ensures Collect(lines, true, mentions, pick) == Candidates(lines, pick)
  {
    if lines != [] {
      InSectionCollectsAll(lines[1..], mentions, pick);
    }
  }

  /** A scan from the top collects the items from the first line that
      mentions the keyword on, and nothing before it. */
  lemma {:induction false} ScanStartsAtFirstMention(lines: seq<string>, mentions: string -> bool, pick: string -> Option<string>)
    ensures Collect(lines, false, mentions, pick) == Candidates(lines[FirstMention(lines, mentions)..], pick)
  {
    if lines != [] {
      if mentions(lines[0]) {
        InSectionCollectsAll(lines, mentions, pick);
      } else {
        ScanStartsAtFirstMention(lines[1..], mentions, pick);
        assert lines[1..][FirstMention(lines[1..], mentions)..] == lines[FirstMention(lines, mentions)..];
      }
    }
  }

  /** Items keep line order. */
  lemma {:induction false} CandidatesAppend(a: seq<string>, b: seq<string>, pick: string -> Option<string>)
    ensures Candidates(a + b, pick) == Candidates(a, pick) + Candidates(b, pick)
  {
    if a != [] {
      CandidatesAppend(a[1..], b, pick);
      assert (a + b)[0] == a[0] && (a + b)[1..] == a[1..] + b;
      var here := if pick(a[0]).Some? then [pick(a[0]).value] else [];
      ConcatAssoc(here, Candidates(a[1..], pick), Candidates(b, pick));
    } else {
      assert a + b == b;
    }
  }

  /** Every item comes from some line, and every line that yields an item
      contributes it. */
  lemma {:induction false} CandidatesMeaning(lines: seq<string>, pick: string -> Option<string>)
    ensures forall x :: x in Candidates(lines, pick) <==> exists i :: 0 <= i < |lines| && pick(lines[i]) == Some(x)
  {
    if lines != [] {
      CandidatesMeaning(lines[1..], pick);
      forall x | exists i :: 0 <= i < |lines| && pick(lines[i]) == Some(x)
        ensures x in Candidates(lines, pick)
      {
        var i :| 0 <= i < |lines| && pick(lines[i]) == Some(x);
        if i > 0 {
          assert lines[1..][i - 1] == lines[i];
        }
      }
      forall x | x in Candidates(lines[1..], pick)
        ensures exists i :: 0 <= i < |lines| && pick(lines[i]) == Some(x)
      {
        var i :| 0 <= i < |lines[1..]| && pick(lines[1..][i]) == Some(x);
        assert lines[i + 1] == lines[1..][i];
      }
    }
  }

  /** A line yields an item exactly when it is a list line whose cleaned text
      is not empty and does not mention the exclusion. */
  lemma ItemOfMeaning(line: string, exclusion: string, x: string)
    ensures ItemsOf(exclusion)(line) == Some(x) <==>
      IsListLine(Trim(line)) && Clean(line) == x && x != [] && !Contains(Lower(x), exclusion)
  {
  }

  // ---------------------------------------------------------------------
  // The extractors
  // ---------------------------------------------------------------------

  lemma ConcatAssoc(a: seq<string>, b: seq<string>, x: seq<string>)
    ensures (a + b) + x == a + (b + x)
  {
  }

  /** The loop's state after the first `n` lines: the items collected and
      the section flag. */
  function Scan(lines: seq<string>, n: nat, mentions: string -> bool, pick: string -> Option<string>): (seq<string>, bool)
    requires n <= |lines|
  {
    if n == 0 then ([], false)
    else
      var prev := Scan(lines, n - 1, mentions, pick);
      var on := prev.1 || mentions(lines[n - 1]);
      (if on && pick(lines[n - 1]).Some? then prev.0 + [pick(lines[n - 1]).value] else prev.0, on)
  }

  /** One more line: the flag after `n + 1` lines is the flag after `n`
      or a mention on line `n` ... */
  lemma ScanFlagStep(lines: seq<string>, n: nat, mentions: string -> bool, pick: string -> Option<string>)
    requires n < |lines|
    ensures Scan(lines, n + 1, mentions, pick).1 == (Scan(lines, n, mentions, pick).1 || mentions(lines[n]))
  {
  }

  /** ... and line `n`'s item is collected when that flag is set. */
  lemma ScanItemsStep(lines: seq<string>, n: nat, mentions: string -> bool, pick: string -> Option<string>)
    requires n < |lines|
    ensures Scan(lines, n + 1, mentions, pick).0 ==
      if Scan(lines, n + 1, mentions, pick).1 && pick(lines[n]).Some?
      then Scan(lines, n, mentions, pick).0 + [pick(lines[n]).value]
      else Scan(lines, n, mentions, pick).0
  {
  }

  /** What the loop has collected, followed by what the scan of the remaining
      lines collects, is what the scan of all lines collects. */
  lemma {:induction false} ScanThenCollect(lines: seq<string>, n: nat, mentions: string -> bool, pick: string -> Option<string>)
    requires n <= |lines|
    ensures Scan(lines, n, mentions, pick).0 + Collect(lines[n..], Scan(lines, n, mentions, pick).1, mentions, pick)
         == Collect(lines, false, mentions, pick)
  {
    if n == 0 {
      assert lines[0..] == lines;
    } else {
      ScanThenCollect(lines, n - 1, mentions, pick);
      var prev := Scan(lines, n - 1, mentions, pick);
      var on := prev.1 || mentions(lines[n - 1]);
      var here := if on && pick(lines[n - 1]).Some? then [pick(lines[n - 1]).value] else [];
      var rest := Collect(lines[n..], on, mentions, pick);
      assert lines[n - 1..][0] == lines[n - 1] && lines[n - 1..][1..] == lines[n..];
      assert Collect(lines[n - 1..], prev.1, mentions, pick) == here + rest;
      ConcatAssoc(prev.0, here, rest);
      assert Scan(lines, n, mentions, pick).0 == prev.0 + here;
    }
  }

  /** The scan of all lines collects what Collect describes. */
  lemma ScanAll(lines: seq<string>, mentions: string -> bool, pick: string -> Option<string>)
    ensures Scan(lines, |lines|, mentions, pick).0 == Collect(lines, false, mentions, pick)
  {
    ScanThenCollect(lines, |lines|, mentions, pick);
    assert lines[|lines|..] == [];
  }

  /** The loop both extractors run: scan the lines with a sticky section
      flag set by the lines that `mentions`, collect the items `pick` finds
      once the flag is set, then keep the first `cap`. */
  method CollectItems(lines: seq<string>, mentions: string -> bool, pick: string -> Option<string>, cap: nat)
    returns (items: seq<string>)
    ensures var all := Collect(lines, false, mentions, pick);
      items == all[..Min(cap, |all|)]
  {
    var collected: seq<string> := [];
    var inSection := false;
    var i := 0;
    while i < |lines|
      invariant 0 <= i <= |lines|
      invariant collected == Scan(lines, i, mentions, pick).0
      invariant inSection == Scan(lines, i, mentions, pick).1
    {
      var line := lines[i];
      ScanFlagStep(lines, i, mentions, pick);
      ScanItemsStep(lines, i, mentions, pick);
      if mentions(line) {
        inSection := true;
      }
      if inSection {
        var item := pick(line);
        if item.Some? {
          collected := collected + [item.value];
        }
      }
      i := i + 1;
    }
    ScanAll(lines, mentions, pick);
    items := collected[..Min(cap, |collected|)];
  }

  /** An extractor: split the reply into lines and scan them for the section
      that mentions `keyword`, keeping list items free of `exclusion`. */
  method Extract(text: string, keyword: string, exclusion: string, cap: nat) returns (items: seq<string>)
    ensures var all := Collect(SplitLines(text), false, MentionsOf(keyword), ItemsOf(exclusion));
      items == all[..Min(cap, |all|)]
  {
    var lines := SplitLines(text);
    items := CollectItems(lines, MentionsOf(keyword), ItemsOf(exclusion), cap);
  }

  /** What an extractor returns from the reply's lines: at most `cap` items,
      taken in order from the front of the items of the lines that follow the
      first mention of the keyword. */
  predicate Extracted(items: seq<string>, lines: seq<string>, keyword: string, exclusion: string, cap: nat)
  {
    var after := Candidates(lines[FirstMention(lines, MentionsOf(keyword))..], ItemsOf(exclusion));
    |items| == Min(cap, |after|) && items == after[..|items|]
  }

  /** Each extracted item is the cleaned text of a list line at or after the
      first mention of the keyword, is not empty and does not mention the
      exclusion; there are at most `cap` of them. */
  lemma ExtractedMeaning(items: seq<string>, lines: seq<string>, keyword: string, exclusion: string, cap: nat)
    requires Extracted(items, lines, keyword, exclusion, cap)
    ensures |items| <= cap
    ensures forall x :: x in items ==>
      (x != [] && !Contains(Lower(x), exclusion) &&
       exists i :: FirstMention(lines, MentionsOf(keyword)) <= i < |lines| &&
         IsListLine(Trim(lines[i])) && Clean(lines[i]) == x)
  {
    var k := FirstMention(lines, MentionsOf(keyword));
    var after := Candidates(lines[k..], ItemsOf(exclusion));
    CandidatesMeaning(lines[k..], ItemsOf(exclusion));
    forall x | x in items
      ensures x != [] && !Contains(Lower(x), exclusion)
      ensures exists i :: k <= i < |lines| && IsListLine(Trim(lines[i])) && Clean(lines[i]) == x
    {
      assert x in after;
      var j :| 0 <= j < |lines[k..]| && ItemsOf(exclusion)(lines[k..][j]) == Some(x);
      assert lines[k + j] == lines[k..][j];
      ItemOfMeaning(lines[k + j], exclusion, x);
    }
  }

  /** `extractRecommendations(analysisText)` */
  method ExtractRecommendations(text: string) returns (items: seq<string>)
    ensures Extracted(items, SplitLines(text), "recommendation", "specific actionable", 5)
  {
    items := Extract(text, "recommendation", "specific actionable", 5);
    ScanStartsAtFirstMention(SplitLines(text), MentionsOf("recommendation"), ItemsOf("specific actionable"));
  }

  /** `extractInsights(analysisText)` */
  method ExtractInsights(text: string) returns (items: seq<string>)
    ensures Extracted(items, SplitLines(text), "insight", "spending insights", 3)
  {
    items := Extract(text, "insight", "spending insights", 3);
    ScanStartsAtFirstMention(SplitLines(text), MentionsOf("insight"), ItemsOf("spending insights"));
  }
}
