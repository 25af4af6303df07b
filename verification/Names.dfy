/** Names derived for ImageBuilds and their Jobs.

    The digest of the build inputs is an arbitrary string of eight hexadecimal digits. */
module Names {
  predicate Letter(c: char) { 'a' <= c <= 'z' }
  predicate Digit(c: char) { '0' <= c <= '9' }
  predicate Alnum(c: char) { Letter(c) || Digit(c) }

  /** Lower-casing, as far as the result can be alphanumeric: besides A to Z, the Kelvin sign
      and the dotted capital I have ASCII lower-case forms. */
  function Lower(c: char): char {
    if 'A' <= c <= 'Z' then c - 'A' + 'a'
    else if c == '\U{212A}' then 'k'
    else if c == '\U{0130}' then 'i'
    else c
  }

  /** Lower-cased, with every maximal run of other characters replaced by one dash. */
  function Collapse(s: string): string {
    if s == "" then ""
    else
      var front, c := Collapse(s[..|s| - 1]), Lower(s[|s| - 1]);
      if Alnum(c) then front + [c]
      else if front != "" && front[|front| - 1] == '-' then front
      else front + "-"
  }

  function TrimLeft(s: string): string { if s != "" && s[0] == '-' then TrimLeft(s[1..]) else s }
  function TrimRight(s: string): string { if s != "" && s[|s| - 1] == '-' then TrimRight(s[..|s| - 1]) else s }

  function Core(s: string): string { TrimRight(TrimLeft(Collapse(s))) }

  function SanitizeDNSLabel(s: string, fallback: string): string { if Core(s) == "" then fallback else Core(s) }

  function TrimSuffix(s: string): string { if s != "" && s[|s| - 1] == '-' then s[..|s| - 1] else s }

  /** Cut to the limit, without a dash at the cut. */
  function Fit(name: string, limit: nat): string { if |name| > limit then TrimSuffix(name[..limit]) else name }

  const IMAGE_BUILD_NAME_MAX := 100
  const HASH_LEN := 8
  const MAX_LABEL := 63
  const MAX_NAME_IN_JOB := 48

  predicate IsHash(h: string) { |h| == HASH_LEN && forall i :: 0 <= i < |h| ==> Digit(h[i]) || 'a' <= h[i] <= 'f' }

  function ImageBuildName(resourceName: string, revision: string, hash: string): string {
    var name := SanitizeDNSLabel(resourceName, "app") + "-" + SanitizeDNSLabel(revision, "rev");
    Fit(name, IMAGE_BUILD_NAME_MAX - HASH_LEN - 1) + "-" + hash
  }

  function BuildJobName(resourceName: string, hash: string): string {
    Fit(SanitizeDNSLabel(resourceName, "app"), MAX_NAME_IN_JOB) + "-" + hash + "-build"
  }

  // ----- clean strings -----

  predicate Dashed(s: string) { forall i :: 0 <= i < |s| ==> Alnum(s[i]) || s[i] == '-' }
  predicate NoDoubleDash(s: string) { forall i :: 0 <= i < |s| - 1 ==> s[i] != '-' || s[i + 1] != '-' }

  /** Alphanumeric words joined by single dashes. */
  predicate Clean(s: string) {
    Dashed(s) && NoDoubleDash(s) && (s != "" ==> s[0] != '-' && s[|s| - 1] != '-')
  }

  /** The label syntax of section 2.1 of RFC 1123. */
  predicate Label1123(s: string) {
    1 <= |s| <= 63 && Dashed(s) && Alnum(s[0]) && Alnum(s[|s| - 1])
  }

  /** The label syntax of section 2.3.1 of RFC 1035, in lower case. */
  predicate Label1035(s: string) { Label1123(s) && Letter(s[0]) }

  lemma {:induction false} CollapseClean(s: string)
    ensures Dashed(Collapse(s)) && NoDoubleDash(Collapse(s))
  {
    if s != "" {
      CollapseClean(s[..|s| - 1]);
    }
  }

  lemma {:induction false} TrimLeftClean(s: string)
    requires Dashed(s) && NoDoubleDash(s)
    ensures var r := TrimLeft(s); Dashed(r) && NoDoubleDash(r) && (r != "" ==> r[0] != '-')
  {
    if s != "" && s[0] == '-' {
      TrimLeftClean(s[1..]);
    }
  }

  lemma {:induction false} TrimRightClean(s: string)
    requires Dashed(s) && NoDoubleDash(s) && (s != "" ==> s[0] != '-')
    ensures Clean(TrimRight(s))
  {
    if s != "" && s[|s| - 1] == '-' {
      TrimRightClean(s[..|s| - 1]);
    }
  }

  lemma CoreIsClean(s: string)
    ensures Clean(Core(s))
  {
    CollapseClean(s);
    TrimLeftClean(Collapse(s));
    TrimRightClean(TrimLeft(Collapse(s)));
  }

  lemma {:induction false} CollapseKeeps(s: string)
    requires Dashed(s) && NoDoubleDash(s)
    ensures Collapse(s) == s
  {
    if s != "" {
      CollapseKeeps(s[..|s| - 1]);
      assert s == s[..|s| - 1] + [s[|s| - 1]];
    }
  }

  /** Sanitising leaves exactly the clean strings alone. */
  lemma CoreFixesCleanStrings(s: string)
    ensures Core(s) == s <==> Clean(s)
  {
    CoreIsClean(s);
    if Clean(s) {
      CollapseKeeps(s);
    }
  }

  // ----- when something is left -----

  predicate HasAlnum(s: string) { exists i :: 0 <= i < |s| && Alnum(Lower(s[i])) }

  /** The first character that survives. */
  function FirstAlnum(s: string): char
    requires HasAlnum(s)
  {
    if Alnum(Lower(s[0])) then Lower(s[0]) else FirstAlnum(s[1..])
  }

  /** Without leading dashes, the collapsed string is empty or starts with the first
      surviving character. */
  lemma {:induction false} CollapseStarts(s: string)
    ensures var r := Collapse(s);
            if HasAlnum(s) then
              (r != "" && r[0] == FirstAlnum(s)) || (|r| > 1 && r[0] == '-' && r[1] == FirstAlnum(s))
            else r == "" || r == "-"
  {
    if s != "" {
      var front, c := s[..|s| - 1], s[|s| - 1];
      CollapseStarts(front);
      assert s == front + [c];
      if HasAlnum(front) {
        FirstOfPrefix(front, c);
      } else if Alnum(Lower(c)) {
        FirstIsLast(front, c);
      }
    }
  }

  lemma {:induction false} FirstOfPrefix(front: string, c: char)
    requires HasAlnum(front)
    ensures HasAlnum(front + [c]) && FirstAlnum(front + [c]) == FirstAlnum(front)
  {
    var i :| 0 <= i < |front| && Alnum(Lower(front[i]));
    assert (front + [c])[i] == front[i];
    if !Alnum(Lower(front[0])) {
      assert front[1..][i - 1] == front[i];
      FirstOfPrefix(front[1..], c);
      assert (front + [c])[1..] == front[1..] + [c];
    }
  }

  lemma {:induction false} FirstIsLast(front: string, c: char)
    requires !HasAlnum(front) && Alnum(Lower(c))
    ensures HasAlnum(front + [c]) && FirstAlnum(front + [c]) == Lower(c)
  {
    assert (front + [c])[|front|] == c;
    if front != "" {
      assert forall i :: 0 <= i < |front[1..]| ==> front[1..][i] == front[i + 1];
      FirstIsLast(front[1..], c);
      assert (front + [c])[1..] == front[1..] + [c];
    }
  }

  lemma {:induction false} TrimRightKeepsHead(s: string)
    requires s != "" && s[0] != '-'
    ensures TrimRight(s) != "" && TrimRight(s)[0] == s[0]
  {
    if s[|s| - 1] == '-' {
      TrimRightKeepsHead(s[..|s| - 1]);
    }
  }

  lemma TrimOneDash(s: string)
    ensures s == "" || s[0] != '-' ==> TrimLeft(s) == s
    ensures s == "-" ==> TrimLeft(s) == ""
    ensures |s| > 1 && s[0] == '-' && s[1] != '-' ==> TrimLeft(s) == s[1..]
  {
    if |s| > 0 && s[0] == '-' {
      assert TrimLeft(s) == TrimLeft(s[1..]);
    }
  }

  /** Something is left exactly when some character survives, and the first survivor leads. */
  lemma CoreStarts(s: string)
    ensures Core(s) != "" <==> HasAlnum(s)
    ensures HasAlnum(s) ==> Core(s)[0] == FirstAlnum(s) && Alnum(Core(s)[0])
  {
    CollapseStarts(s);
    TrimOneDash(Collapse(s));
    if HasAlnum(s) {
      FirstIsAlnum(s);
      TrimRightKeepsHead(TrimLeft(Collapse(s)));
    }
  }

  lemma {:induction false} FirstIsAlnum(s: string)
    requires HasAlnum(s)
    ensures Alnum(FirstAlnum(s))
  {
    if !Alnum(Lower(s[0])) {
      FirstIsAlnum(s[1..]);
    }
  }

  // ----- what survives -----

  /** The alphanumeric characters of the lower-cased input, in order. */
  function Survivors(s: string): string {
    if s == "" then ""
    else
      var front, c := Survivors(s[..|s| - 1]), Lower(s[|s| - 1]);
      if Alnum(c) then front + [c] else front
  }

  function Undash(s: string): string {
    if s == "" then ""
    else
      var front, c := Undash(s[..|s| - 1]), s[|s| - 1];
      if c == '-' then front else front + [c]
  }

  lemma {:induction false} CollapseKeepsSurvivors(s: string)
    ensures Undash(Collapse(s)) == Survivors(s)
  {
    if s != "" {
      var front := Collapse(s[..|s| - 1]);
      CollapseKeepsSurvivors(s[..|s| - 1]);
      assert (front + "-")[..|front|] == front && (front + [Lower(s[|s| - 1])])[..|front|] == front;
    }
  }

  lemma {:induction false} UndashSkipsHead(s: string)
    requires s != "" && s[0] == '-'
    ensures Undash(s[1..]) == Undash(s)
  {
    if |s| > 1 {
      UndashSkipsHead(s[..|s| - 1]);
      assert s[1..][..|s| - 2] == s[..|s| - 1][1..];
    }
  }

  lemma {:induction false} TrimsKeepSurvivors(s: string)
    ensures Undash(TrimLeft(s)) == Undash(s) && Undash(TrimRight(s)) == Undash(s)
  {
    if s != "" {
      if s[0] == '-' {
        UndashSkipsHead(s);
        TrimsKeepSurvivors(s[1..]);
      }
      if s[|s| - 1] == '-' {
        TrimsKeepSurvivors(s[..|s| - 1]);
      }
    }
  }

  /** Sanitising keeps every alphanumeric character, in order, and adds only dashes. */
  lemma CoreKeepsSurvivors(s: string)
    ensures Undash(Core(s)) == Survivors(s)
  {
    CollapseKeepsSurvivors(s);
    TrimsKeepSurvivors(Collapse(s));
    TrimsKeepSurvivors(TrimLeft(Collapse(s)));
  }

  // ----- idempotence -----

  /** Sanitising twice is sanitising once, exactly unless nothing of the input survives and
      the fallback is itself unclean but not empty-handed. */
  lemma SanitizeIdempotentIff(s: string, fallback: string)
    ensures SanitizeDNSLabel(SanitizeDNSLabel(s, fallback), fallback) == SanitizeDNSLabel(s, fallback) <==>
              HasAlnum(s) || !HasAlnum(fallback) || Clean(fallback)
  {
    CoreStarts(s);
    CoreStarts(fallback);
    CoreIsClean(s);
    CoreFixesCleanStrings(Core(s));
    CoreFixesCleanStrings(fallback);
  }

  /** An unclean fallback that breaks idempotence. */
  lemma UncleanFallback()
    ensures SanitizeDNSLabel("", "App") == "App" && SanitizeDNSLabel("App", "App") == "app"
  {
    assert "App"[..2] == "Ap" && "Ap"[..1] == "A" && "A"[..0] == "";
    assert Collapse("A") == "a" && Collapse("Ap") == "ap" && Collapse("App") == "app";
  }

  /** With the clean fallbacks the controllers pass, the result is always clean, not empty,
      and a fixed point. */
  lemma SanitizeIsClean(s: string, fallback: string)
    requires Clean(fallback) && fallback != ""
    ensures var r := SanitizeDNSLabel(s, fallback); Clean(r) && r != "" && SanitizeDNSLabel(r, fallback) == r
  {
    CoreIsClean(s);
    SanitizeIdempotentIff(s, fallback);
  }

  // ----- truncation and the two names -----

  /** One dash is all that truncation can leave behind. */
  lemma TruncationNeedsOneTrim(s: string, limit: nat)
    requires Clean(s) && s != "" && limit > 0
    ensures var r := Fit(s, limit); Clean(r) && 0 < |r| <= limit && r[0] == s[0]
  {
  }

  lemma JoinClean(a: string, b: string)
    requires Clean(a) && Clean(b) && a != "" && b != ""
    ensures Clean(a + "-" + b)
  {
  }

  lemma WithHash(prefix: string, hash: string)
    requires Clean(prefix) && prefix != "" && IsHash(hash)
    ensures var name := prefix + "-" + hash;
            Clean(name) && |name| == |prefix| + 1 + HASH_LEN && name[0] == prefix[0]
            && name[|name| - HASH_LEN..] == hash
  {
    HashClean(hash);
    JoinClean(prefix, hash);
  }

  lemma HashClean(hash: string)
    requires IsHash(hash)
    ensures Clean(hash)
  {
  }

  /** ImageBuild names are clean, at most 100 characters, and end in the digest, so distinct
      digests give distinct names whatever truncation removes. */
  lemma ImageBuildNameIsLegal(resourceName: string, revision: string, hash: string)
    requires IsHash(hash)
    ensures var name := ImageBuildName(resourceName, revision, hash);
            Clean(name) && HASH_LEN + 1 < |name| <= IMAGE_BUILD_NAME_MAX && name[|name| - HASH_LEN..] == hash
  {
    SanitizeIsClean(resourceName, "app");
    SanitizeIsClean(revision, "rev");
    var a, b := SanitizeDNSLabel(resourceName, "app"), SanitizeDNSLabel(revision, "rev");
    JoinClean(a, b);
    TruncationNeedsOneTrim(a + "-" + b, IMAGE_BUILD_NAME_MAX - HASH_LEN - 1);
    WithHash(Fit(a + "-" + b, IMAGE_BUILD_NAME_MAX - HASH_LEN - 1), hash);
  }

  lemma WithSuffix(prefix: string)
    requires Clean(prefix) && prefix != "" && |prefix| <= MAX_LABEL - |"-build"|
    ensures var name := prefix + "-build"; Clean(name) && Label1123(name) && name[0] == prefix[0]
  {
    JoinClean(prefix, "build");
    assert prefix + "-build" == prefix + "-" + "build";
    CleanIsLabel(prefix + "-build");
  }

  lemma CleanIsLabel(s: string)
    requires Clean(s) && 1 <= |s| <= MAX_LABEL
    ensures Label1123(s)
  {
  }

  lemma DigestsSeparateNames(name: string, revision: string, hash: string, name': string, revision': string,
                             hash': string)
    requires IsHash(hash) && IsHash(hash') && hash != hash'
    ensures ImageBuildName(name, revision, hash) != ImageBuildName(name', revision', hash')
  {
    ImageBuildNameIsLegal(name, revision, hash);
    ImageBuildNameIsLegal(name', revision', hash');
  }

  /** Job names are clean RFC 1123 labels for every resource name, and RFC 1035 labels
      exactly when the first surviving character of the resource name is no digit. */
  lemma BuildJobNameIsLegal(resourceName: string, hash: string)
    requires IsHash(hash)
    ensures var name := BuildJobName(resourceName, hash);
            && Clean(name) && Label1123(name)
            && (Label1035(name) <==> (HasAlnum(resourceName) ==> Letter(FirstAlnum(resourceName))))
  {
    SanitizeIsClean(resourceName, "app");
    CoreStarts(resourceName);
    var name := SanitizeDNSLabel(resourceName, "app");
    TruncationNeedsOneTrim(name, MAX_NAME_IN_JOB);
    WithHash(Fit(name, MAX_NAME_IN_JOB), hash);
    WithSuffix(Fit(name, MAX_NAME_IN_JOB) + "-" + hash);
  }

  /** A Job name that RFC 1035 rejects. */
  lemma DigitFirstJobName(hash: string)
    requires IsHash(hash)
    ensures !Label1035(BuildJobName("9app", hash))
  {
    assert Alnum(Lower("9app"[0]));
    BuildJobNameIsLegal("9app", hash);
  }

  // ----- what leads a name -----

  /** The name starts with `full`, cut after at most `limit` characters and not at a dash. */
  predicate LedBy(name: string, full: string, limit: nat, tail: string)
    requires limit > 0
  {
    exists cut: nat :: cut <= |full| && name == full[..cut] + tail
      && (if |full| <= limit then cut == |full| else cut == if full[limit - 1] == '-' then limit - 1 else limit)
  }

  /** An ImageBuild name is the sanitised resource name and revision, cut at 91 characters, and
      the digest; a Job name is the sanitised resource name, cut at 48, and the digest. */
  lemma NamesLead(resourceName: string, revision: string, hash: string)
    ensures var name, rev := SanitizeDNSLabel(resourceName, "app"), SanitizeDNSLabel(revision, "rev");
            && LedBy(ImageBuildName(resourceName, revision, hash), name + "-" + rev, 91, "-" + hash)
            && LedBy(BuildJobName(resourceName, hash), name, 48, "-" + hash + "-build")
  {
    var name, rev := SanitizeDNSLabel(resourceName, "app"), SanitizeDNSLabel(revision, "rev");
    FitCuts(name + "-" + rev, 91, "-" + hash);
    FitCuts(name, 48, "-" + hash + "-build");
    assert BuildJobName(resourceName, hash) == Fit(name, 48) + ("-" + hash + "-build");
    assert ImageBuildName(resourceName, revision, hash) == Fit(name + "-" + rev, 91) + ("-" + hash);
  }

  lemma FitCuts(full: string, limit: nat, tail: string)
    requires limit > 0
    ensures LedBy(Fit(full, limit) + tail, full, limit, tail)
  {
    var cut := if |full| <= limit then |full| else if full[limit - 1] == '-' then limit - 1 else limit;
    if |full| > limit {
      assert full[..limit][..limit - 1] == full[..limit - 1];
    }
    assert Fit(full, limit) == full[..cut];
  }

  // ----- the alphabet -----

  const SMALL := "abcdefghijklmnopqrstuvwxyz"
  const LARGE := "ABCDEFGHIJKLMNOPQRSTUVWXYZ"
  const DIGITS := "0123456789"

  lemma IsLetter(c: char)
    ensures Letter(c) <==> c in SMALL
  {
    if Letter(c) {
      assert SMALL[(c - 'a') as int] == c;
    }
  }

  /** Alphanumeric are the twenty-six letters and the ten digits. */
  lemma AlnumIsListed(c: char)
    ensures Alnum(c) <==> c in SMALL || c in DIGITS
  {
    IsLetter(c);
    if Digit(c) {
      assert DIGITS[(c - '0') as int] == c;
    }
  }

  /** Lower-casing maps the large letters to the small ones. */
  lemma LowerIsListed(i: nat)
    requires i < 26
    ensures Lower(LARGE[i]) == SMALL[i] && Lower(SMALL[i]) == SMALL[i]
  {
  }
}
