/** The RSS scraper (scraper/main.py): three feeds, a smaller category table,
    its own job-type rules, HTML cleaning of descriptions, one row per feed
    entry, and running totals. `feedparser`, the clock, md5 and the database
    are parameters: `feed(url)` is the parsed feed (`None` when parsing
    raised), `now` a timestamp in seconds, `isoformat` its printer, `md5` the
    hex digest, and `reply(i)` the answer to the i-th insert of the run. */
module RssScraper {
  import opened Util
  import ScrapeJobs

  /** Name, URL and default category of each feed, in the order they run. */
  const RssSources: seq<(string, string, string)> := [
    ("WeWorkRemotely", "https://weworkremotely.com/categories/remote-programming-jobs.rss", "Engineering"),
    ("RemoteOK", "https://remoteok.com/remote-jobs.rss", "Engineering"),
    ("Himalayas", "https://himalayas.app/jobs/rss", "Engineering")
  ]

  const CategoryMap: seq<(string, string)> := [
    ("programming", "Engineering"), ("developer", "Engineering"), ("engineering", "Engineering"),
    ("design", "Design"), ("marketing", "Marketing"), ("sales", "Sales"),
    ("support", "Customer Support"), ("product", "Product"), ("data", "Data")
  ]

  // ---------------------------------------------------------------------------
  // Python whitespace

  /** `str.isspace` for one character. */
  predicate IsSpace(c: char) {
    || c == ' ' || '\t' <= c <= '\r' || '\U{1c}' <= c <= '\U{1f}'
    || c == '\U{85}' || c == '\U{a0}' || c == '\U{1680}' || '\U{2000}' <= c <= '\U{200a}'
    || c == '\U{2028}' || c == '\U{2029}' || c == '\U{202f}' || c == '\U{205f}' || c == '\U{3000}'
  }

  predicate NoSpace(s: string) {
    forall i :: 0 <= i < |s| ==> !IsSpace(s[i])
  }

  function StripStart(s: string): (r: string)
    ensures |r| <= |s| && r == s[|s| - |r|..]
    ensures r == [] || !IsSpace(r[0])
    ensures forall i :: 0 <= i < |s| - |r| ==> IsSpace(s[i])
  {
    if s != [] && IsSpace(s[0]) then StripStart(s[1..]) else s
  }

  function StripEnd(s: string): (r: string)
    ensures |r| <= |s| && r == s[..|r|]
    ensures r == [] || !IsSpace(r[|r| - 1])
    ensures forall i :: |r| <= i < |s| ==> IsSpace(s[i])
  {
    if s != [] && IsSpace(s[|s| - 1]) then StripEnd(s[..|s| - 1]) else s
  }

  /** `r` is `s` with `k` characters cut from the front and some from the
      back, and every character cut is whitespace. */
  predicate SpaceMargins(s: string, r: string, k: int) {
    && 0 <= k <= |s| - |r| && r == s[k..k + |r|]
    && (forall i :: 0 <= i < k ==> IsSpace(s[i]))
    && (forall i :: k + |r| <= i < |s| ==> IsSpace(s[i]))
  }

  /** `str.strip()`: the middle of `s` once the whitespace at both ends
      is gone. */
  function Strip(s: string): (r: string)
    ensures r == [] || (!IsSpace(r[0]) && !IsSpace(r[|r| - 1]))
    ensures |r| <= |s| && exists k :: SpaceMargins(s, r, k)
  {
    var e := StripEnd(s);
    var r := StripStart(e);
    assert r != [] ==> r[|r| - 1] == e[|e| - 1];
    StripInside(s, e, r);
    r
  }

  /** The whitespace `StripStart` cuts from `e == s[..|e|]` is whitespace
      of `s`, and so is the tail `StripEnd` cut before it. */
  lemma StripInside(s: string, e: string, r: string)
    requires |e| <= |s| && e == s[..|e|] && forall i :: |e| <= i < |s| ==> IsSpace(s[i])
    requires |r| <= |e| && r == e[|e| - |r|..] && forall i :: 0 <= i < |e| - |r| ==> IsSpace(e[i])
    ensures SpaceMargins(s, r, |e| - |r|)
  {
    var k := |e| - |r|;
    forall i | 0 <= i < k ensures IsSpace(s[i]) {
      assert s[i] == e[i];
    }
    assert r == s[k..k + |r|];
  }

  /** A text that neither starts nor ends with whitespace is its own
      `strip()`. */
  lemma StripUnpadded(s: string)
    requires s != [] && !IsSpace(s[0]) && !IsSpace(s[|s| - 1])
    ensures Strip(s) == s
  {
  }

  // ---------------------------------------------------------------------------
  // Normalisers

  /** The three job types this scraper can produce. */
  const RssJobTypes: seq<string> := ["Full-time", "Part-time", "Contract"]

  function NormalizeJobType(jobType: Option<string>): (r: string)
    ensures r in RssJobTypes
    ensures !Truthy(jobType) ==> r == "Full-time"
  {
    if !Truthy(jobType) then "Full-time" else JobTypeOf(Strip(Lower(jobType.value)))
  }

  /** The keyword tests on the lower-cased, stripped type. */
  function JobTypeOf(t: string): (r: string)
    ensures r in RssJobTypes
  {
    if Contains(t, "full") || Contains(t, "ft") then "Full-time"
    else if Contains(t, "part") || Contains(t, "pt") then "Part-time"
    else if Contains(t, "contract") || Contains(t, "freelance") then "Contract"
    else "Full-time"
  }

  /** 'Freelance' never comes out. */
  lemma NeverFreelance(jobType: Option<string>)
    ensures NormalizeJobType(jobType) != "Freelance"
  {
    assert "Freelance" !in RssJobTypes by {
      assert "Freelance"[1] == 'r';
      assert RssJobTypes[0][1] == 'u' && RssJobTypes[1][1] == 'a' && RssJobTypes[2][1] == 'o';
    }
  }

  /** A freelance type is filed as 'Contract' here, where the cron scraper
      keeps 'Freelance'. */
  lemma FreelanceIsContract()
    ensures NormalizeJobType(Some("freelance")) == "Contract"
    ensures ScrapeJobs.NormalizeJobType("freelance") == "Freelance"
  {
    FreelanceCleaned();
    FreelanceKeywords();
  }

  lemma FreelanceCleaned()
    ensures Lower("freelance") == "freelance" && Strip("freelance") == "freelance"
  {
    FreelanceLower("freelance");
    StripUnpadded("freelance");
  }

  lemma FreelanceLower(s: string)
    requires s == "freelance"
    ensures Lower(s) == s
  {
    assert forall i :: 0 <= i < |s| ==> 'a' <= s[i] <= 'z';
    assert forall i :: 0 <= i < |s| ==> Lower(s)[i] == s[i];
  }

  lemma FreelanceKeywords()
    ensures JobTypeOf("freelance") == "Contract"
    ensures ScrapeJobs.LoweredJobType("freelance") == "Freelance"
  {
    var f := "freelance";
    assert 'u' !in f && 't' !in f && 'p' !in f && 'o' !in f;
    KeywordsMissed(f);
    FreelanceHits();
  }

  /** A text without 'u', 't', 'p' and 'o' contains none of the keywords
      checked before 'freelance'. */
  lemma KeywordsMissed(s: string)
    requires 'u' !in s && 't' !in s && 'p' !in s && 'o' !in s
    ensures !Contains(s, "full") && !Contains(s, "ft") && !Contains(s, "part") && !Contains(s, "pt")
    ensures !Contains(s, "contract") && !Contains(s, "parttime") && !Contains(s, "fulltime")
  {
    NotContainsBy(s, "full", 'u');
    NotContainsBy(s, "ft", 't');
    NotContainsBy(s, "part", 'p');
    NotContainsBy(s, "pt", 'p');
    NotContainsBy(s, "contract", 'o');
    NotContainsBy(s, "parttime", 'p');
    NotContainsBy(s, "fulltime", 'u');
  }

  lemma FreelanceHits()
    ensures Contains("freelance", "freelance")
  {
    ContainsMiddle("", "freelance", "");
    assert "" + "freelance" + "" == "freelance";
  }

  /** A text lacking one of the characters of `t` does not contain `t`. */
  lemma {:induction false} NotContainsBy(s: string, t: string, c: char)
    requires c in t && c !in s
    ensures !Contains(s, t)
    decreases |s|
  {
    if s != [] {
      NotContainsBy(s[1..], t, c);
    }
  }

  /** `normalize_category`: empty input and an input containing no key are
      both 'Other'. */
  function NormalizeCategory(category: Option<string>): (r: string)
    ensures r in ScrapeJobs.Categories
  {
    if !Truthy(category) then "Other" else MappedCategory(Strip(Lower(category.value)))
  }

  /** The key loop on the lower-cased, stripped text. */
  function MappedCategory(t: string): (r: string)
    ensures r in ScrapeJobs.Categories
  {
    match ScrapeJobs.FirstMatch(t, CategoryMap)
    case Some(v) => v
    case None => "Other"
  }

  /** 'Other' comes out exactly for an empty input or one without any key. */
  lemma NormalizeCategoryOther(category: Option<string>)
    ensures NormalizeCategory(category) == "Other" <==>
      !Truthy(category) || forall j :: 0 <= j < |CategoryMap| ==> !Contains(Strip(Lower(category.value)), CategoryMap[j].0)
  {
    if Truthy(category) {
      MappedOther(Strip(Lower(category.value)));
    }
  }

  lemma MappedOther(t: string)
    ensures MappedCategory(t) == "Other" <==> forall j :: 0 <= j < |CategoryMap| ==> !Contains(t, CategoryMap[j].0)
  {
    ScrapeJobs.FirstMatchNone(t, CategoryMap);
    assert forall p :: p in CategoryMap ==> p.1 != "Other";
  }

  // ---------------------------------------------------------------------------
  // HTML cleaning

  /** `re.sub(r'<[^>]+>', '', s)`: from each `<` that is followed by at least
      one character other than `>` and then by a `>`, everything up to that
      `>` is dropped. */
  function RemoveTags(s: string): (r: string)
    decreases |s|
    ensures |r| <= |s|
    ensures forall i :: 0 <= i < |r| ==> r[i] in s
  {
    if s == [] then []
    else
      var close := IndexOf(s, '>', 1);
      if s[0] == '<' && close.Some? && close.value >= 2 then
        var r := RemoveTags(s[close.value + 1..]);
        assert forall i :: 0 <= i < |r| ==> r[i] in s[close.value + 1..];
        r
      else
        var r := RemoveTags(s[1..]);
        assert forall i :: 0 <= i < |r| ==> r[i] in s[1..];
        [s[0]] + r
  }

  /** No substring of `s` matches `<[^>]+>`. */
  predicate NoTag(s: string) {
    forall i :: 0 <= i < |s| && s[i] == '<' ==> (i + 1 < |s| && s[i + 1] == '>') || '>' !in s[i + 1..]
  }

  /** After tag removal no tag is left. */
  lemma {:induction false} RemoveTagsLeavesNoTag(s: string)
    ensures NoTag(RemoveTags(s))
    decreases |s|
  {
    if s != [] {
      var close := IndexOf(s, '>', 1);
      if s[0] == '<' && close.Some? && close.value >= 2 {
        RemoveTagsLeavesNoTag(s[close.value + 1..]);
      } else {
        var t := RemoveTags(s[1..]);
        RemoveTagsLeavesNoTag(s[1..]);
        var r := [s[0]] + t;
        forall i | 0 <= i < |r| && r[i] == '<'
          ensures (i + 1 < |r| && r[i + 1] == '>') || '>' !in r[i + 1..]
        {
          if i > 0 {
            assert r[i + 1..] == t[i..];
          } else if |s| > 1 && s[1] == '>' {
            TagsKeepLeadingClose(s[1..]);
          } else {
            assert '>' !in s[1..];
            assert r[1..] == t;
          }
        }
      }
    }
  }

  lemma TagsKeepLeadingClose(s: string)
    requires s != [] && s[0] == '>'
    ensures RemoveTags(s) != [] && RemoveTags(s)[0] == '>'
  {
  }

  /** Text without tags passes through tag removal unchanged, so removal is
      idempotent. */
  lemma {:induction false} RemoveTagsNoTag(s: string)
    requires NoTag(s)
    ensures RemoveTags(s) == s
    decreases |s|
  {
    if s != [] {
      if s[0] == '<' {
        assert (|s| > 1 && s[1] == '>') || '>' !in s[1..];
      }
      NoTagTail(s);
      RemoveTagsNoTag(s[1..]);
    }
  }

  lemma NoTagTail(s: string)
    requires s != [] && NoTag(s)
    ensures NoTag(s[1..])
  {
    forall i | 0 <= i < |s[1..]| && s[1..][i] == '<'
      ensures (i + 1 < |s[1..]| && s[1..][i + 1] == '>') || '>' !in s[1..][i + 1..]
    {
      assert s[i + 1] == '<';
      assert s[1..][i + 1..] == s[i + 2..];
    }
  }

  lemma RemoveTagsIdempotent(s: string)
    ensures RemoveTags(RemoveTags(s)) == RemoveTags(s)
  {
    RemoveTagsLeavesNoTag(s);
    RemoveTagsNoTag(RemoveTags(s));
  }

  /** `s.replace(pat, rep)`: occurrences replaced left to right, without
      overlap. */
  function Replace(s: string, pat: string, rep: string): string
    requires pat != []
    decreases |s|
  {
    if |s| < |pat| then s
    else if s[..|pat|] == pat then rep + Replace(s[|pat|..], pat, rep)
    else [s[0]] + Replace(s[1..], pat, rep)
  }

  /** Replacing a pattern that does not occur changes nothing. */
  lemma {:induction false} ReplaceAbsent(s: string, pat: string, rep: string)
    requires pat != [] && !Contains(s, pat)
    ensures Replace(s, pat, rep) == s
    decreases |s|
  {
    if |s| >= |pat| {
      assert !StartsWith(s, pat);
      ReplaceAbsent(s[1..], pat, rep);
    }
  }

  /** The longest prefix of `s` without whitespace. */
  function Word(s: string): (w: string)
    ensures |w| <= |s| && w == s[..|w|] && NoSpace(w)
    ensures |w| < |s| ==> IsSpace(s[|w|])
  {
    if s == [] || IsSpace(s[0]) then [] else [s[0]] + Word(s[1..])
  }

  /** The characters of `s` that are not whitespace, in order. */
  function NonSpace(s: string): string {
    if s == [] then [] else (if IsSpace(s[0]) then [] else [s[0]]) + NonSpace(s[1..])
  }

  /** A prefix without whitespace passes through `NonSpace` whole. */
  lemma {:induction false} NonSpacePrefix(s: string, n: nat)
    requires n <= |s| && NoSpace(s[..n])
    ensures NonSpace(s) == s[..n] + NonSpace(s[n..])
  {
    if n == 0 {
      assert s[n..] == s;
    } else {
      assert s[1..][..n - 1] == s[1..n];
      NonSpacePrefix(s[1..], n - 1);
      assert s[1..][n - 1..] == s[n..];
      assert s[..n] == [s[0]] + s[1..n];
    }
  }

  /** `s.split()`: the maximal runs of non-whitespace characters; put back
      together they are exactly the text without its whitespace. */
  function Words(s: string): (r: seq<string>)
    decreases |s|
    ensures forall i :: 0 <= i < |r| ==> r[i] != "" && NoSpace(r[i])
    ensures Concat(r) == NonSpace(s)
  {
    if s == [] then []
    else if IsSpace(s[0]) then Words(s[1..])
    else
      var w := Word(s);
      var rest := Words(s[|w|..]);
      NonSpacePrefix(s, |w|);
      assert ([w] + rest)[1..] == rest;
      [w] + rest
  }

  /** `w` is a maximal run of non-whitespace characters of `s`, starting at
      `p`: whitespace or an end of the text on either side. */
  predicate RunAt(s: string, w: string, p: int) {
    && w != [] && NoSpace(w)
    && 0 <= p && p + |w| <= |s| && s[p..p + |w|] == w
    && (p == 0 || IsSpace(s[p - 1]))
    && (p + |w| == |s| || IsSpace(s[p + |w|]))
  }

  /** `w` is a maximal run of non-whitespace characters somewhere in `s`. */
  ghost predicate IsRun(s: string, w: string) {
    exists p :: RunAt(s, w, p)
  }

  /** A run of the text after its first `k` characters is a run of the
      whole text, when whitespace precedes it. */
  lemma RunAtShift(s: string, k: nat, w: string, p: int)
    requires 0 < k <= |s| && RunAt(s[k..], w, p) && (p > 0 || IsSpace(s[k - 1]))
    ensures RunAt(s, w, p + k)
  {
    assert s[k..][p..p + |w|] == s[p + k..p + k + |w|];
    if p > 0 {
      assert s[k..][p - 1] == s[p + k - 1];
    }
    if p + |w| < |s[k..]| {
      assert s[k..][p + |w|] == s[p + k + |w|];
    }
  }

  /** Every word `split()` gives is a maximal whitespace-free run of the
      text, so no run is ever cut in two. */
  lemma {:induction false} WordsAreRuns(s: string)
    ensures forall i :: 0 <= i < |Words(s)| ==> IsRun(s, Words(s)[i])
    decreases |s|
  {
    if s == [] {
      assert Words(s) == [];
    } else if IsSpace(s[0]) {
      assert Words(s) == Words(s[1..]);
      WordsAreRuns(s[1..]);
      RunsAfter(s, 1, Words(s[1..]));
    } else {
      var w := Word(s);
      var rest := Words(s[|w|..]);
      assert Words(s) == [w] + rest;
      WordsAreRuns(s[|w|..]);
      RunsAfter(s, |w|, rest);
      assert RunAt(s, w, 0);
      forall i | 0 <= i < |Words(s)| ensures IsRun(s, Words(s)[i]) {
        if i > 0 {
          assert Words(s)[i] == rest[i - 1];
        }
      }
    }
  }

  /** The runs of the text after a whitespace character, or after a word
      the whitespace ends, are runs of the whole text. */
  lemma RunsAfter(s: string, k: nat, ws: seq<string>)
    requires 0 < k <= |s| && (IsSpace(s[k - 1]) || k == |s| || IsSpace(s[k]))
    requires forall i :: 0 <= i < |ws| ==> IsRun(s[k..], ws[i])
    ensures forall i :: 0 <= i < |ws| ==> IsRun(s, ws[i])
  {
    forall i | 0 <= i < |ws| ensures IsRun(s, ws[i]) {
      var p :| RunAt(s[k..], ws[i], p);
      assert s[k..][p] == ws[i][0] && s[k..][p] == s[k + p];
      RunAtShift(s, k, ws[i], p);
    }
  }

  /** Whitespace-normalised text: no whitespace at either end, and every
      whitespace character is a single space between two other characters. */
  predicate Normalized(s: string) {
    && (s != [] ==> !IsSpace(s[0]) && !IsSpace(s[|s| - 1]))
    && forall i :: 0 <= i < |s| && IsSpace(s[i]) ==> s[i] == ' ' && i + 1 < |s| && !IsSpace(s[i + 1])
  }

  /** Words joined by single spaces are normalised. */
  lemma {:induction false} JoinWordsNormalized(words: seq<string>)
    requires forall i :: 0 <= i < |words| ==> words[i] != "" && NoSpace(words[i])
    ensures Normalized(Join(words, " "))
  {
    if |words| > 1 {
      var rest := Join(words[1..], " ");
      JoinWordsNormalized(words[1..]);
      JoinNonEmpty(words[1..]);
      var w := words[0];
      var r := w + " " + rest;
      forall i | 0 <= i < |r| && IsSpace(r[i])
        ensures r[i] == ' ' && i + 1 < |r| && !IsSpace(r[i + 1])
      {
        if i > |w| {
          assert r[i] == rest[i - |w| - 1];
          assert i + 1 < |r| && r[i + 1] == rest[i - |w|];
        } else if i == |w| {
          assert r[i + 1] == rest[0];
        }
      }
      assert r[|r| - 1] == rest[|rest| - 1];
    }
  }

  lemma JoinNonEmpty(words: seq<string>)
    requires words != [] && words[0] != ""
    ensures Join(words, " ") != [] && Join(words, " ")[0] == words[0][0]
  {
  }

  /** Normalised text is its own `strip()`. */
  lemma StripNormalized(s: string)
    requires Normalized(s)
    ensures Strip(s) == s
  {
  }

  /** `clean_html`. */
  function CleanHtml(text: Option<string>): (r: string)
    ensures Normalized(r)
    ensures !Truthy(text) ==> r == ""
  {
    if !Truthy(text) then ""
    else
      var t0 := RemoveTags(text.value);
      var t1 := Replace(t0, "&nbsp;", " ");
      var t2 := Replace(t1, "&amp;", "&");
      var t3 := Replace(t2, "&lt;", "<");
      var t4 := Replace(t3, "&gt;", ">");
      var joined := Join(Words(t4), " ");
      JoinWordsNormalized(Words(t4));
      StripNormalized(joined);
      Strip(joined)
  }

  /** Tags are removed before entities are decoded, so an escaped tag comes
      out of the cleaning as a tag. */
  lemma EscapedTagSurvives()
    ensures CleanHtml(Some("&lt;b&gt;")) == "<b>"
  {
    var s := "&lt;b&gt;";
    EscapedKeepsTags(s);
    EscapedKeepsEntities(s);
    EscapedLt(s);
    EscapedGt("<b&gt;");
    DecodedTagWords("<b>");
    assert s != "";
    var t2 := Replace(Replace(RemoveTags(s), "&nbsp;", " "), "&amp;", "&");
    assert t2 == s;
    assert Replace(Replace(t2, "&lt;", "<"), "&gt;", ">") == "<b>";
    assert Truthy(Some(s));
    assert CleanHtml(Some(s)) == Strip(Join(Words("<b>"), " "));
  }

  lemma EscapedKeepsTags(s: string)
    requires s == "&lt;b&gt;"
    ensures RemoveTags(s) == s
  {
    assert '<' !in s;
    RemoveTagsNoTag(s);
  }

  lemma EscapedKeepsEntities(s: string)
    requires s == "&lt;b&gt;"
    ensures Replace(s, "&nbsp;", " ") == s && Replace(s, "&amp;", "&") == s
  {
    NotContainsBy(s, "&nbsp;", 'n');
    ReplaceAbsent(s, "&nbsp;", " ");
    NotContainsBy(s, "&amp;", 'm');
    ReplaceAbsent(s, "&amp;", "&");
  }

  lemma EscapedLt(s: string)
    requires s == "&lt;b&gt;"
    ensures Replace(s, "&lt;", "<") == "<b&gt;"
  {
    var rest := s[4..];
    assert s[..4] == "&lt;" && rest == "b&gt;";
    NotContainsBy(rest, "&lt;", 'l');
    ReplaceAbsent(rest, "&lt;", "<");
  }

  lemma EscapedGt(s: string)
    requires s == "<b&gt;"
    ensures Replace(s, "&gt;", ">") == "<b>"
  {
    var gt := "&gt;";
    var u, v := s[1..], s[2..];
    assert s[..4] != gt && u[..4] != gt;
    assert u[1..] == v == gt && v[4..] == [];
    assert Replace(v, gt, ">") == ">";
    assert Replace(u, gt, ">") == "b>";
  }

  lemma DecodedTagWords(s: string)
    requires s == "<b>"
    ensures Words(s) == [s] && Join(Words(s), " ") == s && Strip(s) == s
  {
    assert NoSpace(s);
    assert Word(s) == s;
    assert s[|s|..] == [];
    StripUnpadded(s);
  }

  // ---------------------------------------------------------------------------
  // Feed entries

  /** What `parse_rss_entry` reads of a feed entry: `published_parsed` as a
      timestamp (`None` when missing or empty) and each tag's `term`
      (`tags` is `None` when the entry has no `tags` key). */
  datatype Entry = Entry(
    title: Field<string>, author: Field<string>, description: Field<string>, link: Field<string>,
    published_parsed: Option<int>, tags: Option<seq<Field<string>>>)

  datatype JobRecord = JobRecord(
    title: string, company: string, description: string, location: string,
    job_type: string, category: string, tags: seq<string>, apply_url: string,
    source: string, source_id: string, published_at: string, is_active: bool)

  /** `entry.get(key, default).strip()`; `None` when the value is `None` and
      `strip` raises. */
  function GetStripped(f: Field<string>, default: string): Option<string> {
    match f
    case Absent => Some(Strip(default))
    case Null => None
    case Present(s) => Some(Strip(s))
  }

  /** The non-empty stripped terms of the tags, in order; `None` when a term
      is `None`. */
  function Terms(tags: seq<Field<string>>): (r: Option<seq<string>>)
    ensures r.Some? ==> |r.value| <= |tags| && forall i :: 0 <= i < |r.value| ==> r.value[i] != ""
  {
    if tags == [] then Some([])
    else match Terms(tags[..|tags| - 1])
      case None => None
      case Some(ts) =>
        match GetStripped(tags[|tags| - 1], "")
        case None => None
        case Some(t) => if t == "" then Some(ts) else Some(ts + [t])
  }

  lemma {:induction false} TermsStaysNone(tags: seq<Field<string>>, i: nat)
    requires i <= |tags| && Terms(tags[..i]).None?
    ensures Terms(tags).None?
    decreases |tags| - i
  {
    if i < |tags| {
      assert tags[..i + 1][..i] == tags[..i];
      TermsStaysNone(tags, i + 1);
    } else {
      assert tags[..i] == tags;
    }
  }

  /** One more tag: its stripped term is appended when it is not empty. */
  lemma TermsStep(tags: seq<Field<string>>, i: nat, ts: seq<string>, t: string)
    requires i < |tags| && Terms(tags[..i]) == Some(ts) && GetStripped(tags[i], "") == Some(t)
    ensures Terms(tags[..i + 1]) == Some(if t == "" then ts else ts + [t])
  {
    assert tags[..i + 1][..i] == tags[..i];
  }

  /** The category the tag loop settles on: the normalisation of the last
      term that does not normalise to 'Other', else the feed's default. */
  function LastCategory(terms: seq<string>, default: string): string {
    if terms == [] then default
    else
      var n := NormalizeCategory(Some(terms[|terms| - 1]));
      if n != "Other" then n else LastCategory(terms[..|terms| - 1], default)
  }

  lemma {:induction false} LastCategoryDefault(terms: seq<string>, default: string)
    requires forall k :: 0 <= k < |terms| ==> NormalizeCategory(Some(terms[k])) == "Other"
    ensures LastCategory(terms, default) == default
  {
    if terms != [] {
      LastCategoryDefault(terms[..|terms| - 1], default);
    }
  }

  lemma {:induction false} LastCategoryLast(terms: seq<string>, default: string, k: int)
    requires 0 <= k < |terms| && NormalizeCategory(Some(terms[k])) != "Other"
    requires forall m :: k < m < |terms| ==> NormalizeCategory(Some(terms[m])) == "Other"
    ensures LastCategory(terms, default) == NormalizeCategory(Some(terms[k]))
  {
    if k < |terms| - 1 {
      LastCategoryLast(terms[..|terms| - 1], default, k);
    }
  }

  /** The stripped title, company and link of an entry that has a non-empty
      title and link; `None` when a `strip` raises or either is empty. */
  function Header(entry: Entry): (r: Option<(string, string, string)>)
    ensures r.Some? ==> r.value.0 != "" && r.value.2 != ""
    ensures r.Some? <==>
      && GetStripped(entry.title, "").Some? && GetStripped(entry.author, "Unknown Company").Some?
      && GetStripped(entry.link, "").Some? && GetStripped(entry.title, "") != Some("") && GetStripped(entry.link, "") != Some("")
  {
    var title := GetStripped(entry.title, "");
    var company := GetStripped(entry.author, "Unknown Company");
    var link := GetStripped(entry.link, "");
    if title.None? || company.None? || link.None? then None
    else if title.value == "" || link.value == "" then None
    else Some((title.value, company.value, link.value))
  }

  /** The terms of the entry's tags; no `tags` key gives no terms. */
  function EntryTerms(entry: Entry): Option<seq<string>> {
    if entry.tags.None? then Some([]) else Terms(entry.tags.value)
  }

  /** The row built from an entry's header, its terms and the category the
      tag loop settled on. */
  function Build(entry: Entry, header: (string, string, string), terms: seq<string>, category: string,
                 sourceName: string, md5: string -> string, now: int, isoformat: int -> string): JobRecord
  {
    var (title, company, link) := header;
    JobRecord(
      title := title,
      company := company,
      description := Take(CleanHtml(PyGet(entry.description, Some(""))), 5000),
      location := "Worldwide",
      job_type := "Full-time",  // `normalize_job_type('Full-time')`, see FullTime
      category := category,
      tags := Take(terms, 10),
      apply_url := link,
      source := sourceName,
      source_id := md5(link),
      published_at := isoformat(if entry.published_parsed.Some? then entry.published_parsed.value else now),
      is_active := true)
  }

  /** What `parse_rss_entry` returns. */
  function Parsed(entry: Entry, sourceName: string, defaultCategory: string,
                  md5: string -> string, now: int, isoformat: int -> string): Option<JobRecord>
  {
    match Header(entry)
    case None => None
    case Some(header) =>
      match EntryTerms(entry)
      case None => None
      case Some(terms) => Some(Build(entry, header, terms, LastCategory(terms, defaultCategory), sourceName, md5, now, isoformat))
  }

  /** The fixed job type is 'Full-time'. */
  lemma FullTime()
    ensures NormalizeJobType(Some("Full-time")) == "Full-time"
  {
    FullTimeCleaned();
    FullTimeKeyword();
  }

  lemma FullTimeCleaned()
    ensures Lower("Full-time") == "full-time" && Strip("full-time") == "full-time"
  {
    FullTimeLower("Full-time", "full-time");
    StripUnpadded("full-time");
  }

  lemma FullTimeLower(s: string, t: string)
    requires s == "Full-time" && t == "full-time"
    ensures Lower(s) == t
  {
    assert LowerChar(s[0]) == t[0];
    assert forall i :: 1 <= i < |s| ==> s[i] == t[i] && !('A' <= s[i] <= 'Z');
    assert forall i :: 0 <= i < |s| ==> Lower(s)[i] == t[i];
  }


  lemma FullTimeKeyword()
    ensures JobTypeOf("full-time") == "Full-time"
  {
    ContainsMiddle("", "full", "-time");
    assert "" + "full" + "-time" == "full-time";
  }

  /** An empty stripped title or link gives no row. */
  lemma ParsedRejects(entry: Entry, sourceName: string, defaultCategory: string,
                      md5: string -> string, now: int, isoformat: int -> string)
    requires GetStripped(entry.title, "") == Some("") || GetStripped(entry.link, "") == Some("")
    ensures Parsed(entry, sourceName, defaultCategory, md5, now, isoformat).None?
  {
  }

  /** Every parsed row has a non-empty title and link, the link's digest as
      its id, the fixed location and job type, a prefix of at most 5000
      characters of the cleaned description, and at most ten non-empty
      tags. */
  lemma ParsedShape(entry: Entry, sourceName: string, defaultCategory: string,
                    md5: string -> string, now: int, isoformat: int -> string)
    requires Parsed(entry, sourceName, defaultCategory, md5, now, isoformat).Some?
    ensures var p := Parsed(entry, sourceName, defaultCategory, md5, now, isoformat).value;
      && p.title != "" && p.apply_url != "" && p.source_id == md5(p.apply_url)
      && p.location == "Worldwide" && p.job_type == "Full-time"
      && |p.description| <= 5000 && p.description <= CleanHtml(PyGet(entry.description, Some("")))
      && |p.tags| <= 10 && (forall i :: 0 <= i < |p.tags| ==> p.tags[i] != "")
  {
    var header := Header(entry).value;
    var terms := EntryTerms(entry).value;
    BuildShape(entry, header, terms, LastCategory(terms, defaultCategory), sourceName, md5, now, isoformat);
  }

  lemma BuildShape(entry: Entry, header: (string, string, string), terms: seq<string>, category: string,
                   sourceName: string, md5: string -> string, now: int, isoformat: int -> string)
    ensures var r := Build(entry, header, terms, category, sourceName, md5, now, isoformat);
      && r.title == header.0 && r.apply_url == header.2 && r.source_id == md5(header.2)
      && r.location == "Worldwide" && r.job_type == "Full-time"
      && |r.description| <= 5000 && r.description <= CleanHtml(PyGet(entry.description, Some("")))
      && |r.tags| <= 10 && r.tags <= terms
  {
  }

  /** `parse_rss_entry`. */
  method ParseRssEntry(entry: Entry, sourceName: string, defaultCategory: string,
                       md5: string -> string, now: int, isoformat: int -> string)
    returns (job: Option<JobRecord>)
    ensures job == Parsed(entry, sourceName, defaultCategory, md5, now, isoformat)
  {
    var header := Header(entry);
    if header.None? {
      return None;
    }
    var category := defaultCategory;
    var tags: seq<string> := [];
    if entry.tags.Some? {
      var ok;
      ok, tags, category := TagLoop(entry.tags.value, defaultCategory);
      if !ok {
        return None;
      }
    }
    job := Some(Build(entry, header.value, tags, category, sourceName, md5, now, isoformat));
  }

  /** The tag loop of `parse_rss_entry`: it collects the non-empty terms and
      rebinds the category to each one that does not normalise to 'Other';
      `ok` is false when a term's `strip` raised. */
  method TagLoop(fields: seq<Field<string>>, defaultCategory: string)
    returns (ok: bool, tags: seq<string>, category: string)
    ensures ok <==> Terms(fields).Some?
    ensures ok ==> tags == Terms(fields).value && category == LastCategory(tags, defaultCategory)
  {
    category := defaultCategory;
    tags := [];
    var i := 0;
    while i < |fields|
      invariant 0 <= i <= |fields|
      invariant Terms(fields[..i]) == Some(tags)
      invariant category == LastCategory(tags, defaultCategory)
    {
      var term := GetStripped(fields[i], "");
      if term.None? {
        assert fields[..i + 1][..i] == fields[..i];
        TermsStaysNone(fields, i + 1);
        return false, tags, category;
      }
      TermsStep(fields, i, tags, term.value);
      if term.value != "" {
        tags := tags + [term.value];
        var normalized := NormalizeCategory(Some(term.value));
        if normalized != "Other" {
          category := normalized;
        }
      }
      i := i + 1;
    }
    assert fields[..i] == fields;
    ok := true;
  }

  /** The rows kept from a feed's entries, in order. */
  function FeedJobs(entries: seq<Entry>, sourceName: string, defaultCategory: string,
                    md5: string -> string, now: int, isoformat: int -> string): (r: seq<JobRecord>)
    ensures |r| <= |entries|
  {
    if entries == [] then []
    else
      var pre := FeedJobs(entries[..|entries| - 1], sourceName, defaultCategory, md5, now, isoformat);
      match Parsed(entries[|entries| - 1], sourceName, defaultCategory, md5, now, isoformat)
      case Some(j) => pre + [j]
      case None => pre
  }

  /** One more entry adds its row, when it parses, after the rows of the
      entries before it. */
  lemma FeedJobsStep(entries: seq<Entry>, i: nat, sourceName: string, defaultCategory: string,
                     md5: string -> string, now: int, isoformat: int -> string)
    requires i < |entries|
    ensures FeedJobs(entries[..i + 1], sourceName, defaultCategory, md5, now, isoformat)
      == FeedJobs(entries[..i], sourceName, defaultCategory, md5, now, isoformat)
         + (match Parsed(entries[i], sourceName, defaultCategory, md5, now, isoformat)
            case Some(j) => [j]
            case None => [])
  {
    assert entries[..i + 1][..i] == entries[..i];
  }

  /** The rows a source yields; `feed(url)` is `None` when the parse raised. */
  function SourceJobs(source: (string, string, string), feed: string -> Option<seq<Entry>>,
                      md5: string -> string, now: int, isoformat: int -> string): seq<JobRecord>
  {
    var (name, url, category) := source;
    if feed(url).None? then [] else FeedJobs(feed(url).value, name, category, md5, now, isoformat)
  }

  /** `fetch_rss_feed`. */
  method FetchRssFeed(source: (string, string, string), feed: string -> Option<seq<Entry>>,
                      md5: string -> string, now: int, isoformat: int -> string)
    returns (jobs: seq<JobRecord>)
    ensures jobs == SourceJobs(source, feed, md5, now, isoformat)
  {
    var (name, url, category) := source;
    var parsed := feed(url);
    jobs := [];
    if parsed.None? || parsed.value == [] {
      return;
    }
    var entries := parsed.value;
    var i := 0;
    while i < |entries|
      invariant 0 <= i <= |entries|
      invariant jobs == FeedJobs(entries[..i], name, category, md5, now, isoformat)
    {
      FeedJobsStep(entries, i, name, category, md5, now, isoformat);
      var job := ParseRssEntry(entries[i], name, category, md5, now, isoformat);
      if job.Some? {
        jobs := jobs + [job.value];
      }
      i := i + 1;
    }
    assert entries[..i] == entries;
  }

  // ---------------------------------------------------------------------------
  // Inserting and totals

  datatype InsertReply = Returned | Raised(message: string)

  /** `insert_job`: a duplicate and any other failure both give `false`. */
  function InsertJob(job: JobRecord, reply: InsertReply): (ok: bool)
    ensures ok <==> reply.Returned?
  {
    match reply
    case Returned => true
    case Raised(m) =>
      if Contains(m, "unique_source_job") || Contains(Lower(m), "duplicate") then false else false
  }

  /** The number of inserts among the first `n` that returned. */
  function Successes(reply: nat -> InsertReply, n: nat): nat {
    if n == 0 then 0 else Successes(reply, n - 1) + (if reply(n - 1).Returned? then 1 else 0)
  }

  /** The number of inserts among the first `n` that raised, whatever the
      message. */
  function Failures(reply: nat -> InsertReply, n: nat): nat {
    if n == 0 then 0 else Failures(reply, n - 1) + (if reply(n - 1).Raised? then 1 else 0)
  }

  /** The "duplicates skipped" figure counts every failed insert, genuine
      errors included. */
  lemma {:induction false} SkippedAreFailures(reply: nat -> InsertReply, n: nat)
    ensures Successes(reply, n) <= n && n - Successes(reply, n) == Failures(reply, n)
  {
    if n > 0 {
      SkippedAreFailures(reply, n - 1);
    }
  }

  /** The number of rows the feeds in `sources` give, where `fetch(source)`
      is what `fetch_rss_feed` returns for a feed. */
  function Fetched(sources: seq<(string, string, string)>, fetch: ((string, string, string)) -> seq<JobRecord>): nat {
    if sources == [] then 0 else Fetched(sources[..|sources| - 1], fetch) + |fetch(sources[|sources| - 1])|
  }

  /** `main`: the totals it prints, with duplicates reported as fetched minus
      inserted. Each feed's rows are those `FetchRssFeed` returns. */
  method RunScraper(feed: string -> Option<seq<Entry>>, md5: string -> string, now: int,
                    isoformat: int -> string, reply: nat -> InsertReply)
    returns (totalFetched: nat, totalInserted: nat, duplicatesSkipped: int)
    ensures totalFetched == Fetched(RssSources, s => SourceJobs(s, feed, md5, now, isoformat))
    ensures totalInserted == Successes(reply, totalFetched) <= totalFetched
    ensures duplicatesSkipped == totalFetched - totalInserted == Failures(reply, totalFetched)
  {
    totalFetched, totalInserted := RunSources(RssSources, s => SourceJobs(s, feed, md5, now, isoformat), reply);
    SkippedAreFailures(reply, totalFetched);
    duplicatesSkipped := totalFetched - totalInserted;
  }

  /** The loop over the feeds: take each one's rows, then insert them one by
      one, counting the inserts that returned. */
  method RunSources(sources: seq<(string, string, string)>, fetch: ((string, string, string)) -> seq<JobRecord>,
                    reply: nat -> InsertReply)
    returns (totalFetched: nat, totalInserted: nat)
    ensures totalFetched == Fetched(sources, fetch)
    ensures totalInserted == Successes(reply, totalFetched)
  {
    totalFetched, totalInserted := 0, 0;
    var k := 0;
    while k < |sources|
      invariant k <= |sources|
      invariant totalFetched == Fetched(sources[..k], fetch)
      invariant totalInserted == Successes(reply, totalFetched)
    {
      var jobs := fetch(sources[k]);
      totalInserted := InsertAll(jobs, totalFetched, totalInserted, reply);
      totalFetched := totalFetched + |jobs|;
      assert sources[..k + 1][..k] == sources[..k];
      k := k + 1;
    }
    assert sources[..k] == sources;
  }

  /** The insert loop for one feed's rows, which are inserts `start`,
      `start + 1`, ... of the run. */
  method InsertAll(jobs: seq<JobRecord>, start: nat, inserted: nat, reply: nat -> InsertReply)
    returns (total: nat)
    requires inserted == Successes(reply, start)
    ensures total == Successes(reply, start + |jobs|)
  {
    total := inserted;
    var j := 0;
    while j < |jobs|
      invariant 0 <= j <= |jobs|
      invariant total == Successes(reply, start + j)
    {
      if InsertJob(jobs[j], reply(start + j)) {
        total := total + 1;
      }
      j := j + 1;
    }
  }
}
