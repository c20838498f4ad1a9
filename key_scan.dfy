/** The two regular-expression scans that pull a token out of `key=<token>`,
    and the key-format check `^[A-Za-z0-9]{8,20}$`, as Python's `re` evaluates them. */
module KeyScan {
  import opened Text
  import opened PyJson

  const Marker: string := "key="

  /** The character class of the captured group: `[^&\s]` or `[A-Za-z0-9]`. */
  datatype TokenClass = NotAmpOrSpace | AsciiAlnum

  predicate InClass(c: char, k: TokenClass) {
    match k
    case NotAmpOrSpace => c != '&' && !IsPySpace(c)
    case AsciiAlnum => IsAsciiAlnum(c)
  }

  predicate AllInClass(t: string, k: TokenClass) {
    forall m :: 0 <= m < |t| ==> InClass(t[m], k)
  }

  /** The pattern `key=(<class>+)` matches at index `i` of `s`. */
  predicate MatchAt(s: string, i: int, k: TokenClass) {
    OccursAt(s, Marker, i) && i + |Marker| < |s| && InClass(s[i + |Marker|], k)
  }

  /** `t` is the longest non-empty run of class characters starting at `j` in `s`:
      what the greedy `+` captures. */
  predicate IsMaximalRun(s: string, j: int, t: string, k: TokenClass) {
    && 0 <= j && j + |t| <= |s| && s[j..j + |t|] == t
    && t != [] && AllInClass(t, k)
    && (j + |t| == |s| || !InClass(s[j + |t|], k))
  }

  /** Where the greedy run of class characters starting at `j` ends. */
  function RunEnd(s: string, j: nat, k: TokenClass): (e: nat)
    requires j <= |s|
    ensures j <= e <= |s|
    ensures forall m :: j <= m < e ==> InClass(s[m], k)
    ensures e == |s| || !InClass(s[e], k)
    decreases |s| - j
  {
    if j == |s| || !InClass(s[j], k) then j else RunEnd(s, j + 1, k)
  }

  /** The leftmost index at or after `i` where the pattern matches. */
  function FirstMatchFrom(s: string, i: nat, k: TokenClass): (r: Option<nat>)
    requires i <= |s|
    ensures r.Some? ==> i <= r.value && MatchAt(s, r.value, k)
    ensures r.Some? ==> forall j :: i <= j < r.value ==> !MatchAt(s, j, k)
    ensures r.None? <==> forall j :: i <= j < |s| ==> !MatchAt(s, j, k)
    decreases |s| - i
  {
    if i == |s| then None
    else if MatchAt(s, i, k) then Some(i)
    else FirstMatchFrom(s, i + 1, k)
  }

  function FirstMatch(s: string, k: TokenClass): (r: Option<nat>)
    ensures r.Some? ==> MatchAt(s, r.value, k) && forall j :: 0 <= j < r.value ==> !MatchAt(s, j, k)
    ensures r.None? <==> forall j :: 0 <= j < |s| ==> !MatchAt(s, j, k)
  {
    FirstMatchFrom(s, 0, k)
  }

  /** `re.search(r'key=(<class>+)', s)` followed by `match.group(1)`, or `None`
      when there is no match: the capture of the leftmost match, as long as the
      class allows. */
  function Search(s: string, k: TokenClass): (r: Option<string>)
    ensures r.None? <==> forall j :: 0 <= j < |s| ==> !MatchAt(s, j, k)
    ensures r.Some? ==> FirstMatch(s, k).Some? &&
                        IsMaximalRun(s, FirstMatch(s, k).value + |Marker|, r.value, k)
  {
    match FirstMatch(s, k)
    case None => None
    case Some(i) =>
      var e := RunEnd(s, i + |Marker|, k);
      assert s[i + |Marker|..e] != [] by { assert e > i + |Marker|; }
      Some(s[i + |Marker|..e])
  }

  /** A captured token is preceded by `key=` in the scanned text. */
  lemma SearchFollowsMarker(s: string, k: TokenClass)
    requires Search(s, k).Some?
    ensures Contains(s, Marker + Search(s, k).value)
  {
    var i := FirstMatch(s, k).value;
    var t := Search(s, k).value;
    assert s[i..i + |Marker| + |t|] == s[i..i + |Marker|] + s[i + |Marker|..i + |Marker| + |t|];
    assert OccursAt(s, Marker + t, i);
  }

  /** Without `key=` in the text, neither pattern can match: the guard
      `'key=' in error` never changes what the scan finds. */
  lemma NoMarkerNoMatch(s: string, k: TokenClass)
    requires !Contains(s, Marker)
    ensures Search(s, k) == None
  {
    forall j | 0 <= j < |s| ensures !MatchAt(s, j, k) {
      assert !OccursAt(s, Marker, j);
    }
  }

  /** The exact key format `[A-Za-z0-9]{8,20}`. */
  predicate StrictKeyFormat(s: string) {
    8 <= |s| <= 20 && AllInClass(s, AsciiAlnum)
  }

  /** What `re.match(r'^[A-Za-z0-9]{8,20}$', s)` accepts: Python's `$` also
      matches just before a final newline. */
  predicate KeyPatternMatches(s: string) {
    || StrictKeyFormat(s)
    || (|s| > 0 && s[|s| - 1] == '\n' && StrictKeyFormat(s[..|s| - 1]))
  }

  /** The pattern accepts exactly the exact-format keys and those keys followed by one "\n". */
  lemma {:induction false} KeyPatternShape(s: string)
    ensures KeyPatternMatches(s) <==>
      StrictKeyFormat(s) || exists t :: StrictKeyFormat(t) && s == t + "\n"
  {
    if |s| > 0 && s[|s| - 1] == '\n' && StrictKeyFormat(s[..|s| - 1]) {
      assert s == s[..|s| - 1] + "\n";
    }
    if exists t :: StrictKeyFormat(t) && s == t + "\n" {
      var t :| StrictKeyFormat(t) && s == t + "\n";
      assert s[..|s| - 1] == t;
    }
  }

  /** A token captured by either scan holds no newline, so for it the trailing-newline
      allowance of `$` is moot and the pattern means the exact format. */
  lemma TokenPatternIsStrict(t: string, k: TokenClass)
    requires AllInClass(t, k)
    ensures KeyPatternMatches(t) <==> StrictKeyFormat(t)
  {
    if |t| > 0 && t[|t| - 1] == '\n' {
      assert InClass(t[|t| - 1], k);
      assert IsPySpace('\n');
    }
  }

  /** A token of the alphanumeric scan is a valid key iff its length is 8 to 20. */
  lemma AlnumTokenFormat(t: string)
    requires AllInClass(t, AsciiAlnum)
    ensures KeyPatternMatches(t) <==> 8 <= |t| <= 20
  {
    TokenPatternIsStrict(t, AsciiAlnum);
  }

  /** The greedy capture at `j` is unique: two maximal runs starting there are equal. */
  lemma MaximalRunUnique(s: string, j: int, t: string, t': string, k: TokenClass)
    requires IsMaximalRun(s, j, t, k) && IsMaximalRun(s, j, t', k)
    ensures t == t'
  {
    forall m | j <= m < j + |t| ensures InClass(s[m], k) {
      assert s[m] == t[m - j];
    }
    forall m | j <= m < j + |t'| ensures InClass(s[m], k) {
      assert s[m] == t'[m - j];
    }
    assert |t| == |t'|;
  }

  /** `Search` is determined by the leftmost match and the maximal run after it. */
  lemma SearchIs(s: string, i: int, t: string, k: TokenClass)
    requires MatchAt(s, i, k) && forall j :: 0 <= j < i ==> !MatchAt(s, j, k)
    requires IsMaximalRun(s, i + |Marker|, t, k)
    ensures Search(s, k) == Some(t)
  {
    assert FirstMatch(s, k) == Some(i);
    MaximalRunUnique(s, i + |Marker|, Search(s, k).value, t, k);
  }

  /** Python's `re.match` has no word boundary here: `monkey=` counts as a marker. */
  lemma MarkerInsideWord()
    ensures Search("x?monkey=abc", NotAmpOrSpace) == Some("abc")
  {
    var s := "x?monkey=abc";
    forall j | 0 <= j < 5 ensures !MatchAt(s, j, NotAmpOrSpace) {
      assert s[j] != 'k';
      assert j + 4 <= |s| ==> s[j..j + 4][0] == s[j];
    }
    assert s[5..9] == Marker;
    assert s[9..12] == "abc";
    SearchIs(s, 5, "abc", NotAmpOrSpace);
  }
}
