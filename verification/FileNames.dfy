/** File names for received files (crates/daemon/src/transfer.rs): the sanitizer
    and the numbered copies tried on a collision. */
module FileNames {
  import opened Prelude

  const FALLBACK_NAME := "received-file"
  const PART_SUFFIX := ".handfast-part"
  const MAX_FILE_NAME_LEN: nat := 240
  const MAX_NAME_COLLISIONS: nat := 10_000

  // ---- decimal printing ------------------------------------------------------

  function Digit(d: nat): char
    requires d < 10
  {
    ('0' as int + d) as char
  }

  function Decimal(n: nat): (s: string)
    ensures s != ""
  {
    if n < 10 then [Digit(n)] else Decimal(n / 10) + [Digit(n % 10)]
  }

  function ParseDecimal(s: string): int {
    if s == "" then 0 else 10 * ParseDecimal(s[..|s| - 1]) + (s[|s| - 1] as int - '0' as int)
  }

  lemma {:induction false} DecimalRoundTrip(n: nat)
    ensures ParseDecimal(Decimal(n)) == n
  {
    var s := Decimal(n);
    if n >= 10 {
      assert s[..|s| - 1] == Decimal(n / 10);
      DecimalRoundTrip(n / 10);
    } else {
      assert s[..0] == "";
    }
  }

  lemma DecimalInjective(m: nat, n: nat)
    requires Decimal(m) == Decimal(n)
    ensures m == n
  {
    DecimalRoundTrip(m);
    DecimalRoundTrip(n);
  }

  /** No leading zeros, and nothing but digits. */
  lemma {:induction false} DecimalIsCanonical(n: nat)
    ensures Decimal(n)[0] == '0' ==> n == 0
    ensures forall i :: 0 <= i < |Decimal(n)| ==> '0' <= Decimal(n)[i] <= '9'
    ensures n < 10 ==> |Decimal(n)| == 1
  {
    if n >= 10 {
      DecimalIsCanonical(n / 10);
    }
  }

  // ---- candidates for a destination -------------------------------------------

  /** Position of the last dot, or -1. */
  function LastDot(name: string): (i: int)
    ensures -1 <= i < |name| && (i >= 0 ==> name[i] == '.')
    ensures forall j :: i < j < |name| ==> name[j] != '.'
  {
    if name == "" then -1
    else if name[|name| - 1] == '.' then |name| - 1
    else LastDot(name[..|name| - 1])
  }

  /** `Path::file_stem` and, with its dot, `Path::extension` of a bare component: a
      name whose only dot is its first character has no extension. */
  function Stem(name: string): string {
    var i := LastDot(name);
    if i <= 0 then name else name[..i]
  }

  function DotExtension(name: string): string {
    var i := LastDot(name);
    if i <= 0 then "" else name[i..]
  }

  lemma StemPlusExtension(name: string)
    ensures Stem(name) + DotExtension(name) == name
  {
  }

  /** The n-th name tried: the plain name, then `stem (n).ext`. */
  function Candidate(name: string, n: nat): string {
    if n == 0 then name else Stem(name) + " (" + Decimal(n) + ")" + DotExtension(name)
  }

  lemma {:induction false} LastDotAt(stem: string, ext: string)
    requires '.' !in ext
    ensures LastDot(stem + "." + ext) == |stem|
  {
    var name := stem + "." + ext;
    if ext == "" {
      assert name == stem + ".";
    } else {
      var less := ext[..|ext| - 1];
      assert name[..|name| - 1] == stem + "." + less && name[|name| - 1] == ext[|ext| - 1];
      LastDotAt(stem, less);
    }
  }

  lemma StemAndExtension(stem: string, ext: string)
    requires '.' !in ext
    ensures stem != "" ==> Stem(stem + "." + ext) == stem && DotExtension(stem + "." + ext) == "." + ext
    ensures stem == "" ==> Stem("." + ext) == "." + ext && DotExtension("." + ext) == ""
    ensures Stem(ext) == ext && DotExtension(ext) == ""
  {
    var name := stem + "." + ext;
    LastDotAt(stem, ext);
    assert name[..|stem|] == stem && name[|stem|..] == "." + ext;
    assert stem == "" ==> name == "." + ext;
    assert LastDot(ext) == -1;
  }

  lemma CandidateParts(name: string, n: nat)
    requires n > 0
    ensures Candidate(name, n) == (Stem(name) + " (") + Decimal(n) + (")" + DotExtension(name))
  {
  }

  /** The copies of `stem.ext` are `stem (1).ext`, `stem (2).ext` and so on. */
  lemma CandidateShape(stem: string, ext: string, n: nat)
    requires '.' !in ext && n > 0 && stem != ""
    ensures Candidate(stem + "." + ext, 0) == stem + "." + ext
    ensures Candidate(stem + "." + ext, n) == (stem + " (") + Decimal(n) + (")" + ("." + ext))
  {
    StemAndExtension(stem, ext);
    CandidateParts(stem + "." + ext, n);
  }

  /** A name without a dot, or with its only dot in front, gets the number at its end. */
  lemma CandidateShapePlain(name: string, n: nat)
    requires '.' !in name && n > 0
    ensures Candidate(name, n) == (name + " (") + Decimal(n) + ")"
    ensures Candidate("." + name, n) == (("." + name) + " (") + Decimal(n) + ")"
  {
    StemAndExtension("", name);
    CandidateParts(name, n);
    CandidateParts("." + name, n);
    assert ")" + "" == ")";
  }

  lemma Middle(a: string, d: string, e: string)
    ensures |a + d + e| == |a| + |d| + |e| && (a + d + e)[|a|..|a| + |d|] == d
  {
  }

  lemma CandidateInjective(name: string, m: nat, n: nat)
    requires Candidate(name, m) == Candidate(name, n)
    ensures m == n
  {
    StemPlusExtension(name);
    var a, e := Stem(name) + " (", ")" + DotExtension(name);
    if m > 0 {
      CandidateParts(name, m);
      Middle(a, Decimal(m), e);
    }
    if n > 0 {
      CandidateParts(name, n);
      Middle(a, Decimal(n), e);
    }
    if m > 0 && n > 0 {
      DecimalInjective(m, n);
    }
  }

  function Candidates(name: string, n: nat): set<string> {
    set i | 0 <= i < n :: Candidate(name, i)
  }

  lemma {:induction false} CandidatesCount(name: string, n: nat)
    ensures |Candidates(name, n)| == n
  {
    if n > 0 {
      var fewer, last := Candidates(name, n - 1), Candidate(name, n - 1);
      CandidatesCount(name, n - 1);
      if last in fewer {
        var i :| 0 <= i < n - 1 && last == Candidate(name, i);
        CandidateInjective(name, i, n - 1);
      }
      assert Candidates(name, n) == fewer + {last};
    } else {
      assert Candidates(name, n) == {};
    }
  }

  /** Pigeonhole: fewer entries than candidates leave a candidate free. */
  lemma SomeCandidateIsFree(name: string, taken: set<string>)
    requires |taken| < MAX_NAME_COLLISIONS
    ensures exists n :: 0 <= n < MAX_NAME_COLLISIONS && Candidate(name, n) !in taken
  {
    var all := Candidates(name, MAX_NAME_COLLISIONS);
    CandidatesCount(name, MAX_NAME_COLLISIONS);
    if all <= taken {
      SubsetSize(all, taken);
      assert false;
    }
    var free :| free in all && free !in taken;
  }

  lemma {:induction false} SubsetSize(a: set<string>, b: set<string>)
    requires a <= b
    ensures |a| <= |b|
  {
    if a != {} {
      var x :| x in a;
      SubsetSize(a - {x}, b - {x});
    }
  }

  // ---- the sanitizer -----------------------------------------------------------

  predicate IsSeparator(c: char) {
    c == '/' || c == '\\'
  }

  predicate IsHostile(c: char) {
    c in "<>:\"|?*" || c as int < 0x20 || c as int == 0x7f
  }

  predicate IsTrailer(c: char) {
    c == '.' || c == ' '
  }

  /** Position of the last separator, or -1. */
  function LastSeparator(raw: string): (i: int)
    ensures -1 <= i < |raw| && (i >= 0 ==> IsSeparator(raw[i]))
    ensures forall j :: i < j < |raw| ==> !IsSeparator(raw[j])
  {
    if raw == "" then -1
    else if IsSeparator(raw[|raw| - 1]) then |raw| - 1
    else LastSeparator(raw[..|raw| - 1])
  }

  /** `split` at either separator. */
  function Segments(raw: string): seq<string> {
    var i := LastSeparator(raw);
    if i < 0 then [raw] else Segments(raw[..i]) + [raw[i + 1..]]
  }

  predicate Usable(segment: string) {
    segment != "" && segment != "." && segment != ".."
  }

  function LastUsable(segments: seq<string>): Option<string> {
    if segments == [] then None
    else if Usable(segments[|segments| - 1]) then Some(segments[|segments| - 1])
    else LastUsable(segments[..|segments| - 1])
  }

  function Clean(base: string): (s: string)
    ensures |s| == |base|
  {
    seq(|base|, i requires 0 <= i < |base| => if IsHostile(base[i]) then '_' else base[i])
  }

  function TrimEnd(s: string): (t: string)
    ensures t <= s
    ensures t != "" ==> !IsTrailer(t[|t| - 1])
  {
    if s != "" && IsTrailer(s[|s| - 1]) then TrimEnd(s[..|s| - 1]) else s
  }

  function Truncate(s: string): string {
    if |s| <= MAX_FILE_NAME_LEN then s else s[..MAX_FILE_NAME_LEN]
  }

  /** Everything but the truncation. */
  function Trimmed(raw: string): string {
    TrimEnd(Clean(LastUsable(Segments(raw)).GetOr(FALLBACK_NAME)))
  }

  function Sanitized(raw: string): string {
    var truncated := Truncate(Trimmed(raw));
    if truncated == "" then FALLBACK_NAME else truncated
  }

  method PickSegment(segments: seq<string>) returns (picked: Option<string>)
    ensures picked == LastUsable(segments)
  {
    picked := None;
    for k := 0 to |segments|
      invariant picked == LastUsable(segments[..k])
    {
      assert segments[..k + 1][..k] == segments[..k];
      if Usable(segments[k]) {
        picked := Some(segments[k]);
      }
    }
    assert segments[..|segments|] == segments;
  }

  method SanitizeFileName(raw: string) returns (name: string)
    ensures name == Sanitized(raw)
  {
    var picked := PickSegment(Segments(raw));
    var trimmed := TrimEnd(Clean(picked.GetOr(FALLBACK_NAME)));
    var truncated := Truncate(trimmed);
    if truncated == "" {
      return FALLBACK_NAME;
    }
    return truncated;
  }

  /** A name that may be joined to the save directory. */
  ghost predicate SafeName(name: string) {
    && name != "" && name != "." && name != ".."
    && |name| <= MAX_FILE_NAME_LEN
    && forall i :: 0 <= i < |name| ==> !IsSeparator(name[i]) && !IsHostile(name[i])
  }

  /** What the sanitizer is after: a safe name that does not end in a dot or a space. */
  ghost predicate CleanName(name: string) {
    SafeName(name) && !IsTrailer(name[|name| - 1])
  }

  ghost predicate NoSeparator(s: string) {
    forall i :: 0 <= i < |s| ==> !IsSeparator(s[i])
  }

  lemma {:induction false} SegmentsHaveNoSeparator(raw: string)
    ensures forall k :: 0 <= k < |Segments(raw)| ==> NoSeparator(Segments(raw)[k])
  {
    var i := LastSeparator(raw);
    if i >= 0 {
      SegmentsHaveNoSeparator(raw[..i]);
    }
  }

  lemma {:induction false} LastUsableIsASegment(segments: seq<string>)
    ensures LastUsable(segments).Some? ==> LastUsable(segments).value in segments && Usable(LastUsable(segments).value)
  {
    if segments != [] && !Usable(segments[|segments| - 1]) {
      LastUsableIsASegment(segments[..|segments| - 1]);
    }
  }

  lemma TrimmedIsSafe(raw: string)
    ensures NoSeparator(Trimmed(raw))
    ensures forall i :: 0 <= i < |Trimmed(raw)| ==> !IsHostile(Trimmed(raw)[i])
  {
    SegmentsHaveNoSeparator(raw);
    LastUsableIsASegment(Segments(raw));
    var base := LastUsable(Segments(raw)).GetOr(FALLBACK_NAME);
    assert NoSeparator(base);
  }

  /** Whatever a peer sends, the name stays inside the save directory. */
  lemma SanitizedIsSafe(raw: string)
    ensures SafeName(Sanitized(raw))
  {
    TrimmedIsSafe(raw);
  }

  lemma NoSeparatorOneSegment(name: string)
    requires NoSeparator(name)
    ensures Segments(name) == [name]
  {
  }

  lemma CleanIsIdentity(name: string)
    requires forall i :: 0 <= i < |name| ==> !IsHostile(name[i])
    ensures Clean(name) == name
  {
  }

  /** The names the sanitizer leaves alone are exactly the clean ones. */
  lemma FixedPoints(name: string)
    ensures Sanitized(name) == name <==> CleanName(name)
  {
    if CleanName(name) {
      NoSeparatorOneSegment(name);
      assert LastUsable([name]) == Some(name);
      CleanIsIdentity(name);
    }
    if Sanitized(name) == name {
      SanitizedIsSafe(name);
      NoSeparatorOneSegment(name);
      assert LastUsable([name]) == Some(name);
      CleanIsIdentity(name);
    }
  }

  /** The comment in the source promises no trailing dot or space. The cut to 240
      characters comes after the trimming, so exactly this input breaks it. */
  predicate CutAtTrailer(raw: string) {
    var t := Trimmed(raw);
    |t| > MAX_FILE_NAME_LEN && IsTrailer(t[MAX_FILE_NAME_LEN - 1])
  }

  lemma TrailersStripped(raw: string)
    ensures CleanName(Sanitized(raw)) <==> !CutAtTrailer(raw)
    ensures Sanitized(Sanitized(raw)) == Sanitized(raw) <==> !CutAtTrailer(raw)
  {
    SanitizedIsSafe(raw);
    FixedPoints(Sanitized(raw));
  }

  /** Such a name exists. */
  lemma TrailerSurvives()
    ensures var raw := seq(239, _ => 'a') + ".b";
            CutAtTrailer(raw) && Sanitized(raw) == seq(239, _ => 'a') + "."
  {
    var raw := seq(239, _ => 'a') + ".b";
    assert NoSeparator(raw);
    NoSeparatorOneSegment(raw);
    assert LastUsable([raw]) == Some(raw);
    CleanIsIdentity(raw);
    assert Trimmed(raw) == raw;
    assert raw[..MAX_FILE_NAME_LEN] == seq(239, _ => 'a') + ".";
  }

  /** Directories in front of a clean name are dropped, whatever they are. */
  lemma DirectoriesDropped(prefix: string, separator: char, name: string)
    requires IsSeparator(separator) && CleanName(name)
    ensures Sanitized(prefix + [separator] + name) == name
  {
    var raw := prefix + [separator] + name;
    var i := LastSeparator(raw);
    assert raw[|prefix|] == separator;
    assert forall j :: |prefix| < j < |raw| ==> raw[j] == name[j - |prefix| - 1];
    assert i == |prefix|;
    assert raw[i + 1..] == name;
    var segments := Segments(raw);
    assert segments[|segments| - 1] == name;
    CleanIsIdentity(name);
  }

  /** `split` at the last separator; with `NoSeparatorOneSegment` this is all of it. */
  lemma SegmentsSplit(prefix: string, separator: char, segment: string)
    requires IsSeparator(separator) && NoSeparator(segment)
    ensures Segments(prefix + [separator] + segment) == Segments(prefix) + [segment]
  {
    var raw := prefix + [separator] + segment;
    assert raw[|prefix|] == separator;
    assert forall j :: |prefix| < j < |raw| ==> raw[j] == segment[j - |prefix| - 1];
    assert LastSeparator(raw) == |prefix|;
    assert raw[..|prefix|] == prefix && raw[|prefix| + 1..] == segment;
  }

  /** The last usable component decides, whatever stands before it; components that are
      empty or dots alone are skipped; and with none left the fallback name is used. */
  lemma LastComponentDecides(prefix: string, separator: char, segment: string)
    requires IsSeparator(separator) && NoSeparator(segment)
    ensures segment != "" && segment != "." && segment != ".." ==>
      Sanitized(prefix + [separator] + segment) == Sanitized(segment)
    ensures segment == "" || segment == "." || segment == ".." ==>
      Sanitized(prefix + [separator] + segment) == Sanitized(prefix) && Sanitized(segment) == "received-file"
  {
    SegmentsSplit(prefix, separator, segment);
    NoSeparatorOneSegment(segment);
    var all := Segments(prefix) + [segment];
    assert all[|all| - 1] == segment && all[..|all| - 1] == Segments(prefix);
    assert [segment][..0] == [];
    if !Usable(segment) {
      assert LastUsable([segment]) == None;
      assert CleanName("received-file");
      CleanIsIdentity("received-file");
    }
  }

  /** Characters are kept one by one, but for control characters and the seven that
      Windows reserves, which become underscores. */
  lemma CleanAt(base: string, i: nat)
    requires i < |base|
    ensures |Clean(base)| == |base|
    ensures var c := base[i];
      Clean(base)[i] ==
        if c == '<' || c == '>' || c == ':' || c == '"' || c == '|' || c == '?' || c == '*' || c as int < 0x20 || c as int == 0x7f
        then '_' else c
  {
  }

  /** Trailing dots and spaces, and only those, are dropped. */
  lemma {:induction false} TrimsTrailers(name: string, trailers: string)
    requires (name == "" || !IsTrailer(name[|name| - 1])) && forall i :: 0 <= i < |trailers| ==> IsTrailer(trailers[i])
    ensures TrimEnd(name + trailers) == name
  {
    var all := name + trailers;
    if trailers == "" {
      assert all == name;
    } else {
      var fewer := trailers[..|trailers| - 1];
      assert all[..|all| - 1] == name + fewer && all[|all| - 1] == trailers[|trailers| - 1];
      TrimsTrailers(name, fewer);
    }
  }

  /** One component on its own: cleaned, trimmed, cut to 240 characters, never empty. */
  lemma SanitizedComponent(name: string, trailers: string)
    requires NoSeparator(name + trailers) && name != "" && !IsTrailer(Clean(name)[|name| - 1])
    requires forall i :: 0 <= i < |trailers| ==> IsTrailer(trailers[i])
    ensures Sanitized(name + trailers) == if |name| <= 240 then Clean(name) else Clean(name)[..240]
  {
    var raw := name + trailers;
    NoSeparatorOneSegment(raw);
    assert !IsTrailer(name[|name| - 1]) by { CleanAt(name, |name| - 1); }
    assert raw[|name| - 1] == name[|name| - 1] && Usable(raw);
    assert LastUsable([raw]) == Some(raw);
    assert Clean(raw) == Clean(name) + trailers by {
      forall i | 0 <= i < |raw| ensures Clean(raw)[i] == (Clean(name) + trailers)[i] {
        CleanAt(raw, i);
        if i < |name| { CleanAt(name, i); }
      }
    }
    TrimsTrailers(Clean(name), trailers);
  }

  lemma NoSeparatorConcat(a: string, b: string)
    requires NoSeparator(a) && NoSeparator(b)
    ensures NoSeparator(a + b)
  {
  }

  /** Numbered copies and part files stay in the save directory too. */
  lemma PartStaysInside(name: string)
    requires SafeName(name)
    ensures NoSeparator(name + PART_SUFFIX) && Usable(name + PART_SUFFIX)
  {
    NoSeparatorConcat(name, PART_SUFFIX);
  }

  lemma NumberedStaysInside(name: string, n: nat)
    requires SafeName(name) && n > 0
    ensures NoSeparator(Candidate(name, n))
  {
    var a, e := Stem(name) + " (", ")" + DotExtension(name);
    StemPlusExtension(name);
    DecimalIsCanonical(n);
    NoSeparatorConcat(Stem(name), " (");
    NoSeparatorConcat(")", DotExtension(name));
    NoSeparatorConcat(a, Decimal(n));
    NoSeparatorConcat(a + Decimal(n), e);
    CandidateParts(name, n);
  }

  lemma CandidateStaysInside(name: string, n: nat)
    requires SafeName(name)
    ensures NoSeparator(Candidate(name, n)) && Usable(Candidate(name, n))
    ensures NoSeparator(name + PART_SUFFIX) && Usable(name + PART_SUFFIX)
  {
    PartStaysInside(name);
    if n > 0 {
      NumberedStaysInside(name, n);
      CandidateParts(name, n);
      Middle(Stem(name) + " (", Decimal(n), ")" + DotExtension(name));
    }
  }
}
