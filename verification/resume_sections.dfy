/**
 * The section parsers of src/utils/resumeParser.ts: `parseExperience`,
 * `parseEducation`, `parseSkills` and `parseListSection`. Each loop is a
 * method proved equal to a fold over the lines, and the promises of the
 * parsers are lemmas about those folds.
 */
module ResumeSections {
  import opened Wrappers
  import opened JsText
  import opened ResumeMarkup

  /** `parts.map(p => p.trim())`. */
  function TrimAll(ps: seq<string>): (r: seq<string>)
    ensures |r| == |ps| && forall i :: 0 <= i < |ps| ==> r[i] == Trim(ps[i])
  {
    seq(|ps|, i requires 0 <= i < |ps| => Trim(ps[i]))
  }

  /** `parts.map(cleanText)`. */
  function CleanAll(ps: seq<string>): (r: seq<string>)
    ensures |r| == |ps| && forall i :: 0 <= i < |ps| ==> r[i] == CleanText(ps[i])
  {
    seq(|ps|, i requires 0 <= i < |ps| => CleanText(ps[i]))
  }

  /** A list bullet: `* ` or `- ` at the start. */
  predicate IsBullet(line: string) {
    StartsWith(line, "* ") || StartsWith(line, "- ")
  }

  // ---- Experience ----

  datatype ExperienceItem = ExperienceItem(
    company: string, role: string, period: string, highlights: seq<string>, hasPageBreak: bool)

  /** `parts[i] ? cleanText(parts[i]) : ''`. */
  function OptionalPart(parts: seq<string>, i: nat): string {
    if i < |parts| && parts[i] != "" then CleanText(parts[i]) else ""
  }

  /** The item a `## Company | Role | Period` line opens. */
  function HeaderItem(line: string): (e: ExperienceItem)
    requires StartsWith(line, "## ")
    ensures e.highlights == [] && !e.hasPageBreak
    ensures IsTrimmed(e.company) && IsTrimmed(e.role) && IsTrimmed(e.period)
  {
    var parts := TrimAll(Split(line[3..], '|'));
    // `cleanText(parts[0] || '')`: the first part always exists.
    ExperienceItem(CleanText(parts[0]), OptionalPart(parts, 1), OptionalPart(parts, 2), [], false)
  }

  /** What `line.replace(/^[\*\-\s]+/, '')` removes: the leading run of markers and spaces. */
  function StripMarkers(s: string): (r: string)
    ensures |r| <= |s| && r == s[|s| - |r|..]
    ensures r == [] || !(r[0] == '*' || r[0] == '-' || IsWhiteSpace(r[0]))
  {
    if |s| > 0 && (s[0] == '*' || s[0] == '-' || IsWhiteSpace(s[0])) then StripMarkers(s[1..]) else s
  }

  /** A nested bullet: the raw line starts with two spaces or a tab. */
  predicate IsNested(raw: string) {
    StartsWith(raw, "  ") || StartsWith(raw, "\t")
  }

  /** The loop state: the pushed items and `currentExp`. */
  datatype ExpState = ExpState(done: seq<ExperienceItem>, cur: Option<ExperienceItem>)

  /** The items so far, the open one last. */
  function Items(st: ExpState): seq<ExperienceItem> {
    st.done + (if st.cur.Some? then [st.cur.value] else [])
  }

  /** One line of `parseExperience`. */
  function ExperienceStep(st: ExpState, raw: string): (r: ExpState)
    ensures Trim(raw) == "" ==> r == st
    ensures st.cur.None? && !StartsWith(Trim(raw), "## ") ==> r == st
  {
    var line := Trim(raw);
    if line == "" then st
    else if StartsWith(line, "## ") then
      ExpState(Items(st), Some(HeaderItem(line)))
    else if IsBullet(line) && st.cur.Some? then
      st.(cur := Some(BulletStep(st.cur.value, raw, line)))
    else st
  }

  /**
   * A bullet line applied to the open item: `BREAK` marks a page break, a
   * top-level bullet is appended, a nested one is appended with the `  - `
   * marker when the item already has a bullet. The heading never changes.
   */
  function BulletStep(cur: ExperienceItem, raw: string, line: string): (r: ExperienceItem)
    requires IsBullet(line)
    ensures Heading(r) == Heading(cur)
    ensures r.highlights == cur.highlights || (|r.highlights| == |cur.highlights| + 1 && r.highlights[..|cur.highlights|] == cur.highlights)
    ensures CleanText(line[2..]) == "BREAK" ==> r == cur.(hasPageBreak := true)
    ensures CleanText(line[2..]) != "BREAK" && !IsNested(raw) ==>
      r == cur.(highlights := cur.highlights + [CleanText(line[2..])])
    ensures CleanText(line[2..]) != "BREAK" && IsNested(raw) ==>
      r == cur.(highlights := if |cur.highlights| > 0 then cur.highlights + ["  - " + CleanText(StripMarkers(line))]
                              else cur.highlights)
  {
    var content := CleanText(line[2..]);
    if content == "BREAK" then
      cur.(hasPageBreak := true)
    else if !IsNested(raw) then
      cur.(highlights := cur.highlights + [content])
    else if |cur.highlights| > 0 then
      cur.(highlights := cur.highlights + ["  - " + CleanText(StripMarkers(line))])
    else cur
  }

  function ExperienceFoldFrom(st: ExpState, lines: seq<string>): ExpState
    decreases |lines|
  {
    if |lines| == 0 then st
    else ExperienceStep(ExperienceFoldFrom(st, lines[..|lines| - 1]), lines[|lines| - 1])
  }

  /** `parseExperience`. */
  function Experience(lines: seq<string>): seq<ExperienceItem> {
    Items(ExperienceFoldFrom(ExpState([], None), lines))
  }

  /** `parseExperience`: the `forEach` loop over the lines with a mutable `currentExp`. */
  method ParseExperience(lines: seq<string>) returns (experiences: seq<ExperienceItem>)
    ensures experiences == Experience(lines)
  {
    experiences := [];
    var currentExp: Option<ExperienceItem> := None;
    for i := 0 to |lines|
      invariant ExpState(experiences, currentExp) == ExperienceFoldFrom(ExpState([], None), lines[..i])
    {
      assert lines[..i + 1][..i] == lines[..i];
      var rawLine := lines[i];
      var line := Trim(rawLine);
      if line == "" {
        continue;
      }
      if StartsWith(line, "## ") {
        if currentExp.Some? {
          experiences := experiences + [currentExp.value];
        }
        currentExp := Some(HeaderItem(line));
      } else if IsBullet(line) {
        var content := CleanText(line[2..]);
        if content == "BREAK" && currentExp.Some? {
          currentExp := Some(currentExp.value.(hasPageBreak := true));
          continue;
        }
        var isNested := IsNested(rawLine);
        if currentExp.Some? && !isNested {
          currentExp := Some(currentExp.value.(highlights := currentExp.value.highlights + [content]));
        } else if currentExp.Some? && isNested {
          var masterText := CleanText(StripMarkers(line));
          if |currentExp.value.highlights| > 0 {
            currentExp := Some(currentExp.value.(highlights := currentExp.value.highlights + ["  - " + masterText]));
          }
        }
      }
    }
    assert lines[..|lines|] == lines;
    experiences := Items(ExpState(experiences, currentExp));
  }

  /** The trimmed `## ` lines, in order. */
  function Headers(lines: seq<string>): seq<string>
    decreases |lines|
  {
    if |lines| == 0 then []
    else
      var line := Trim(lines[|lines| - 1]);
      Headers(lines[..|lines| - 1]) + (if StartsWith(line, "## ") then [line] else [])
  }

  /** An item with its bullets and page break forgotten. */
  function Heading(e: ExperienceItem): ExperienceItem {
    e.(highlights := [], hasPageBreak := false)
  }

  /** One line either opens a new item or keeps every item's heading. */
  lemma StepItems(st: ExpState, raw: string)
    ensures StartsWith(Trim(raw), "## ") ==>
      Items(ExperienceStep(st, raw)) == Items(st) + [HeaderItem(Trim(raw))]
    ensures !StartsWith(Trim(raw), "## ") ==>
      && |Items(ExperienceStep(st, raw))| == |Items(st)|
      && forall k :: 0 <= k < |Items(st)| ==> Heading(Items(ExperienceStep(st, raw))[k]) == Heading(Items(st)[k])
  {
  }

  /**
   * One item per `## ` line, in order, with company, role and period taken
   * from that line.
   */
  lemma {:induction false} ExperienceFollowsHeaders(lines: seq<string>)
    ensures |Experience(lines)| == |Headers(lines)|
    ensures forall k :: 0 <= k < |Headers(lines)| ==>
      StartsWith(Headers(lines)[k], "## ") && Heading(Experience(lines)[k]) == HeaderItem(Headers(lines)[k])
    decreases |lines|
  {
    if |lines| > 0 {
      var front := lines[..|lines| - 1];
      var raw := lines[|lines| - 1];
      ExperienceFollowsHeaders(front);
      var st := ExperienceFoldFrom(ExpState([], None), front);
      assert ExperienceFoldFrom(ExpState([], None), lines) == ExperienceStep(st, raw);
      assert Headers(lines) == Headers(front) + (if StartsWith(Trim(raw), "## ") then [Trim(raw)] else []);
      StepItems(st, raw);
    }
  }

  /**
   * An item's bullets: no bullet is the `BREAK` marker, and the first one is a
   * top-level bullet, so it never carries the nested `  - ` marker.
   */
  predicate WellFormed(e: ExperienceItem) {
    && (forall i :: 0 <= i < |e.highlights| ==> e.highlights[i] != "BREAK")
    && (|e.highlights| > 0 ==> !StartsWith(e.highlights[0], " "))
  }

  predicate AllWellFormed(items: seq<ExperienceItem>) {
    forall e :: e in items ==> WellFormed(e)
  }

  /** A top-level bullet is cleaned text: trimmed, so it does not start with a space. */
  lemma CleanedBullet(content: string)
    requires IsTrimmed(content)
    ensures !StartsWith(content, " ")
  {
    if |content| >= 1 {
      assert !IsWhiteSpace(content[0]);
    }
  }

  lemma BulletWellFormed(cur: ExperienceItem, raw: string, line: string)
    requires IsBullet(line) && WellFormed(cur)
    ensures WellFormed(BulletStep(cur, raw, line))
  {
    var content := CleanText(line[2..]);
    if content != "BREAK" && !IsNested(raw) {
      CleanedBullet(content);
      assert BulletStep(cur, raw, line).highlights == cur.highlights + [content];
    } else if content != "BREAK" && |cur.highlights| > 0 {
      var nested := "  - " + CleanText(StripMarkers(line));
      assert nested[0] == ' ';
      assert BulletStep(cur, raw, line).highlights == cur.highlights + [nested];
    }
  }

  lemma StepWellFormed(st: ExpState, raw: string)
    requires AllWellFormed(Items(st))
    ensures AllWellFormed(Items(ExperienceStep(st, raw)))
  {
    var line := Trim(raw);
    if line != "" && !StartsWith(line, "## ") && IsBullet(line) && st.cur.Some? {
      assert Items(st)[|Items(st)| - 1] == st.cur.value;
      BulletWellFormed(st.cur.value, raw, line);
      assert Items(ExperienceStep(st, raw)) == st.done + [BulletStep(st.cur.value, raw, line)];
    }
  }

  /** Every parsed item is well formed. */
  lemma {:induction false} ExperienceWellFormed(lines: seq<string>)
    ensures AllWellFormed(Experience(lines))
    decreases |lines|
  {
    if |lines| > 0 {
      var front := lines[..|lines| - 1];
      ExperienceWellFormed(front);
      StepWellFormed(ExperienceFoldFrom(ExpState([], None), front), lines[|lines| - 1]);
    }
  }

  lemma {:induction false} ExperienceFoldAppend(st: ExpState, a: seq<string>, b: seq<string>)
    ensures ExperienceFoldFrom(st, a + b) == ExperienceFoldFrom(ExperienceFoldFrom(st, a), b)
    decreases |b|
  {
    if |b| == 0 {
      assert a + b == a;
    } else {
      assert (a + b)[..|a + b| - 1] == a + b[..|b| - 1];
      ExperienceFoldAppend(st, a, b[..|b| - 1]);
    }
  }

  lemma {:induction false} NoHeadersNoItems(lines: seq<string>)
    requires Headers(lines) == []
    ensures ExperienceFoldFrom(ExpState([], None), lines) == ExpState([], None)
    decreases |lines|
  {
    if |lines| > 0 {
      NoHeadersNoItems(lines[..|lines| - 1]);
    }
  }

  /** Lines before the first `## ` line (stray bullets, text) are dropped. */
  lemma LinesBeforeFirstHeaderDropped(pre: seq<string>, rest: seq<string>)
    requires Headers(pre) == []
    ensures Experience(pre + rest) == Experience(rest)
  {
    NoHeadersNoItems(pre);
    ExperienceFoldAppend(ExpState([], None), pre, rest);
  }

  /** A `## ` line with three `|`-free parts gives the cleaned, trimmed parts, `''` for a blank one. */
  lemma HeaderItemParts(company: string, role: string, period: string)
    requires '|' !in company && '|' !in role && '|' !in period
    ensures StartsWith("## " + company + "|" + role + "|" + period, "## ")
    ensures HeaderItem("## " + company + "|" + role + "|" + period) ==
      ExperienceItem(CleanText(Trim(company)),
                     if Trim(role) == "" then "" else CleanText(Trim(role)),
                     if Trim(period) == "" then "" else CleanText(Trim(period)), [], false)
  {
    var line := "## " + company + "|" + role + "|" + period;
    assert line[..3] == "## ";
    assert line[3..] == company + ['|'] + (role + ['|'] + period);
    SplitAtFirst(company, '|', role + ['|'] + period);
    SplitAtFirst(role, '|', period);
    SplitWithoutSeparator(period, '|');
    assert Split(line[3..], '|') == [company, role, period];
  }

  /** A `## ` line without `|` names only the company; role and period are `''`. */
  lemma HeaderItemCompanyOnly(company: string)
    requires '|' !in company
    ensures StartsWith("## " + company, "## ")
    ensures HeaderItem("## " + company) == ExperienceItem(CleanText(Trim(company)), "", "", [], false)
  {
    var line := "## " + company;
    assert line[..3] == "## ";
    assert line[3..] == company;
    SplitWithoutSeparator(company, '|');
  }

  /** A bullet whose cleaned text is `BREAK`. */
  predicate BreakLine(raw: string) {
    var line := Trim(raw);
    IsBullet(line) && CleanText(line[2..]) == "BREAK"
  }

  predicate NoHeader(lines: seq<string>) {
    forall k :: 0 <= k < |lines| ==> !StartsWith(Trim(lines[k]), "## ")
  }

  /** Some line is a `BREAK` bullet. */
  predicate AnyBreak(lines: seq<string>)
    decreases |lines|
  {
    |lines| > 0 && (AnyBreak(lines[..|lines| - 1]) || BreakLine(lines[|lines| - 1]))
  }

  lemma {:induction false} AnyBreakAt(lines: seq<string>)
    ensures AnyBreak(lines) <==> exists k :: 0 <= k < |lines| && BreakLine(lines[k])
    decreases |lines|
  {
    if |lines| > 0 {
      var front, raw := lines[..|lines| - 1], lines[|lines| - 1];
      AnyBreakAt(front);
      BreakSnoc(front, raw);
      assert front + [raw] == lines;
    }
  }

  lemma BreakSnoc(front: seq<string>, raw: string)
    ensures (exists k :: 0 <= k < |front + [raw]| && BreakLine((front + [raw])[k])) <==>
            (exists k :: 0 <= k < |front| && BreakLine(front[k])) || BreakLine(raw)
  {
    var body := front + [raw];
    if exists k :: 0 <= k < |body| && BreakLine(body[k]) {
      var k :| 0 <= k < |body| && BreakLine(body[k]);
      if k < |front| {
        assert front[k] == body[k];
      }
    }
    if exists k :: 0 <= k < |front| && BreakLine(front[k]) {
      var k :| 0 <= k < |front| && BreakLine(front[k]);
      assert body[k] == front[k];
    }
    if BreakLine(raw) {
      assert body[|front|] == raw;
    }
  }

  /** A line without `## ` keeps the open item; it sets the page break exactly when it is a `BREAK` bullet. */
  lemma StepKeepsItem(st: ExpState, raw: string)
    requires st.cur.Some? && !StartsWith(Trim(raw), "## ")
    ensures
      var r := ExperienceStep(st, raw);
      && r.done == st.done && r.cur.Some? && Heading(r.cur.value) == Heading(st.cur.value)
      && (r.cur.value.hasPageBreak <==> st.cur.value.hasPageBreak || BreakLine(raw))
  {
  }

  /**
   * Lines without a `## ` keep the open item open with its heading; its page
   * break is set exactly when one of them is a `BREAK` bullet.
   */
  lemma {:induction false} BodyKeepsItem(done: seq<ExperienceItem>, e: ExperienceItem, body: seq<string>)
    requires NoHeader(body)
    ensures
      var st := ExperienceFoldFrom(ExpState(done, Some(e)), body);
      && st.done == done && st.cur.Some? && Heading(st.cur.value) == Heading(e)
      && (st.cur.value.hasPageBreak <==> e.hasPageBreak || AnyBreak(body))
    decreases |body|
  {
    if |body| > 0 {
      var front := body[..|body| - 1];
      var raw := body[|body| - 1];
      assert NoHeader(front) by {
        assert forall k :: 0 <= k < |front| ==> front[k] == body[k];
      }
      BodyKeepsItem(done, e, front);
      var st := ExperienceFoldFrom(ExpState(done, Some(e)), front);
      assert ExperienceFoldFrom(ExpState(done, Some(e)), body) == ExperienceStep(st, raw);
      StepKeepsItem(st, raw);
    }
  }

  /**
   * The item a `## ` line opens has a page break exactly when a `BREAK`
   * bullet follows it before the next `## ` line.
   */
  lemma ExperiencePageBreak(pre: seq<string>, header: string, body: seq<string>)
    requires StartsWith(Trim(header), "## ") && NoHeader(body)
    ensures
      var items := Experience(pre + [header] + body);
      && |items| > 0
      && Heading(items[|items| - 1]) == HeaderItem(Trim(header))
      && (items[|items| - 1].hasPageBreak <==> exists k :: 0 <= k < |body| && BreakLine(body[k]))
  {
    var start := ExpState([], None);
    ExperienceFoldAppend(start, pre + [header], body);
    assert (pre + [header])[..|pre|] == pre;
    var st := ExperienceFoldFrom(start, pre + [header]);
    assert st == ExpState(Items(ExperienceFoldFrom(start, pre)), Some(HeaderItem(Trim(header))));
    BodyKeepsItem(st.done, st.cur.value, body);
    AnyBreakAt(body);
  }

  // ---- Education ----

  datatype EducationItem = EducationItem(degree: string, institution: string, period: Option<string>)

  /** The item for one line, when it is not blank and holds a `|`. */
  function EducationLine(raw: string): (r: Option<EducationItem>)
    ensures r.Some? <==> '|' in raw
    ensures r.Some? ==> IsTrimmed(r.value.degree) && IsTrimmed(r.value.institution)
  {
    var line := Trim(raw);
    TrimKeeps(raw, '|');
    if line == "" then None
    else if '|' in line then
      SplitHasSeparator(line, '|');
      var parts := CleanAll(TrimAll(Split(line, '|')));
      // `parts[2]` is undefined when the line has a single `|`.
      Some(EducationItem(parts[0], parts[1], if |parts| > 2 then Some(parts[2]) else None))
    else None
  }

  /** A line is read trimmed, so surrounding blanks change nothing. */
  lemma EducationLineTrimmed(raw: string)
    ensures EducationLine(raw) == EducationLine(Trim(raw))
  {
    TrimIdempotent(raw);
    TrimKeeps(raw, '|');
  }

  /** `Degree | Institution`: the cleaned parts, and no period. */
  lemma EducationTwoParts(raw: string, degree: string, institution: string)
    requires '|' !in degree && '|' !in institution
    requires Trim(raw) == degree + "|" + institution
    ensures EducationLine(raw) == Some(EducationItem(CleanText(Trim(degree)), CleanText(Trim(institution)), None))
  {
    var line := Trim(raw);
    assert line == degree + ['|'] + institution;
    assert line[|degree|] == '|';
    TrimKeeps(raw, '|');
    SplitAtFirst(degree, '|', institution);
    SplitWithoutSeparator(institution, '|');
  }

  /** `Degree | Institution | Period`: the three cleaned parts. */
  lemma EducationThreeParts(raw: string, degree: string, institution: string, period: string)
    requires '|' !in degree && '|' !in institution && '|' !in period
    requires Trim(raw) == degree + "|" + institution + "|" + period
    ensures EducationLine(raw) ==
      Some(EducationItem(CleanText(Trim(degree)), CleanText(Trim(institution)), Some(CleanText(Trim(period)))))
  {
    var line := Trim(raw);
    assert line == degree + ['|'] + (institution + ['|'] + period);
    assert line[|degree|] == '|';
    TrimKeeps(raw, '|');
    SplitAtFirst(degree, '|', institution + ['|'] + period);
    SplitAtFirst(institution, '|', period);
    SplitWithoutSeparator(period, '|');
  }

  function Education(lines: seq<string>): (r: seq<EducationItem>)
    ensures |r| <= |lines|
    decreases |lines|
  {
    if |lines| == 0 then []
    else
      var item := EducationLine(lines[|lines| - 1]);
      Education(lines[..|lines| - 1]) + (if item.Some? then [item.value] else [])
  }

  /** The number of lines holding a `|`. */
  function CountWithBar(lines: seq<string>): nat
    decreases |lines|
  {
    if |lines| == 0 then 0
    else CountWithBar(lines[..|lines| - 1]) + (if '|' in lines[|lines| - 1] then 1 else 0)
  }

  /** One item per line holding a `|`, in order; blank lines and other lines give none. */
  lemma {:induction false} EducationCount(lines: seq<string>)
    ensures |Education(lines)| == CountWithBar(lines)
    decreases |lines|
  {
    if |lines| > 0 {
      EducationCount(lines[..|lines| - 1]);
    }
  }

  lemma {:induction false} EducationAppend(a: seq<string>, b: seq<string>)
    ensures Education(a + b) == Education(a) + Education(b)
    decreases |b|
  {
    if |b| == 0 {
      assert a + b == a;
    } else {
      assert (a + b)[..|a + b| - 1] == a + b[..|b| - 1];
      EducationAppend(a, b[..|b| - 1]);
    }
  }

  /** `parseEducation`. */
  method ParseEducation(lines: seq<string>) returns (items: seq<EducationItem>)
    ensures items == Education(lines)
  {
    items := [];
    for i := 0 to |lines|
      invariant items == Education(lines[..i])
    {
      assert lines[..i + 1][..i] == lines[..i];
      var line := Trim(lines[i]);
      if line == "" {
        continue;
      }
      if '|' in line {
        SplitHasSeparator(line, '|');
        var parts := CleanAll(TrimAll(Split(line, '|')));
        items := items + [EducationItem(parts[0], parts[1], if |parts| > 2 then Some(parts[2]) else None)];
      }
    }
    assert lines[..|lines|] == lines;
  }

  // ---- Skills ----

  datatype SkillCategory = SkillCategory(category: string, items: seq<string>)

  /** The category of `Category: a, b, c`: text before the first `:`, items between it and the next. */
  function SkillOf(content: string): (r: Option<SkillCategory>)
    ensures r.Some? <==> ':' in content
    ensures r.Some? ==> IsTrimmed(r.value.category) && |r.value.items| >= 1
  {
    var parts := Split(content, ':');
    SplitPieces(content, ':');
    if |parts| > 1 then Some(SkillCategory(CleanText(parts[0]), CleanAll(Split(parts[1], ','))))
    else None
  }

  /** Anything after a second `:` is dropped. */
  lemma SkillIgnoresSecondColon(category: string, items: string, rest: string)
    requires ':' !in category && ':' !in items
    ensures SkillOf(category + ":" + (items + ":" + rest)) == SkillOf(category + ":" + items)
    ensures SkillOf(category + ":" + items) == Some(SkillCategory(CleanText(category), CleanAll(Split(items, ','))))
  {
    FirstPiece(items, rest);
    SkillOfParts(category, items, items + ":" + rest);
    SplitWithoutSeparator(items, ':');
    SkillOfParts(category, items, items);
  }

  lemma FirstPiece(items: string, rest: string)
    requires ':' !in items
    ensures Split(items + ":" + rest, ':')[0] == items
  {
    SplitAtFirst(items, ':', rest);
    assert items + ":" + rest == items + [':'] + rest;
  }

  /** With no `:` in the category, the items come from the piece after the first `:`. */
  lemma SkillOfParts(category: string, items: string, after: string)
    requires ':' !in category && Split(after, ':')[0] == items
    ensures SkillOf(category + ":" + after) == Some(SkillCategory(CleanText(category), CleanAll(Split(items, ','))))
  {
    var content := category + ":" + after;
    assert content == category + [':'] + after;
    SplitAtFirst(category, ':', after);
    var parts := Split(content, ':');
    assert parts == [category] + Split(after, ':');
    assert parts[0] == category && parts[1] == items;
  }

  /** The category for one line: a `* ` bullet holding a `:`. */
  function SkillLine(raw: string): Option<SkillCategory> {
    var line := Trim(raw);
    if line == "" then None
    else if StartsWith(line, "* ") then SkillOf(line[2..])
    else None
  }

  function Skills(lines: seq<string>): (r: seq<SkillCategory>)
    ensures |r| <= |lines|
    decreases |lines|
  {
    if |lines| == 0 then []
    else
      var c := SkillLine(lines[|lines| - 1]);
      Skills(lines[..|lines| - 1]) + (if c.Some? then [c.value] else [])
  }

  /**
   * A single line gives the category of the text after its `* ` marker when it
   * is such a bullet holding a `:`, and nothing otherwise.
   */
  lemma SkillsLine(l: string)
    ensures Skills([l]) == if StartsWith(Trim(l), "* ") && ':' in Trim(l)[2..] then [SkillOf(Trim(l)[2..]).value] else []
  {
    assert [l][..0] == [];
    if StartsWith(Trim(l), "* ") {
      assert Trim(l) != "";
    }
  }

  /** The categories of `a + b` are those of `a`, then those of `b`. */
  lemma {:induction false} SkillsAppend(a: seq<string>, b: seq<string>)
    ensures Skills(a + b) == Skills(a) + Skills(b)
    decreases |b|
  {
    if |b| == 0 {
      assert a + b == a;
    } else {
      assert (a + b)[..|a + b| - 1] == a + b[..|b| - 1];
      SkillsAppend(a, b[..|b| - 1]);
    }
  }

  /** Only `* ` bullets with a `:` count; every category name is trimmed. */
  lemma {:induction false} SkillsFromColonBullets(lines: seq<string>)
    ensures forall c :: c in Skills(lines) ==> IsTrimmed(c.category) && |c.items| >= 1
    ensures (forall i :: 0 <= i < |lines| ==> !StartsWith(Trim(lines[i]), "* ") || ':' !in Trim(lines[i]))
      ==> Skills(lines) == []
    decreases |lines|
  {
    if |lines| > 0 {
      SkillsFromColonBullets(lines[..|lines| - 1]);
      var line := Trim(lines[|lines| - 1]);
      if StartsWith(line, "* ") && ':' !in line {
        assert ':' !in line[2..] by {
          assert forall j :: 0 <= j < |line| - 2 ==> line[2..][j] == line[j + 2] && line[j + 2] in line;
        }
      }
    }
  }

  /** `parseSkills`. */
  method ParseSkills(lines: seq<string>) returns (categories: seq<SkillCategory>)
    ensures categories == Skills(lines)
  {
    categories := [];
    for i := 0 to |lines|
      invariant categories == Skills(lines[..i])
    {
      assert lines[..i + 1][..i] == lines[..i];
      var line := Trim(lines[i]);
      if line == "" {
        continue;
      }
      if StartsWith(line, "* ") {
        var content := line[2..];
        var parts := Split(content, ':');
        if |parts| > 1 {
          categories := categories + [SkillCategory(CleanText(parts[0]), CleanAll(Split(parts[1], ',')))];
        }
      }
    }
    assert lines[..|lines|] == lines;
  }

  // ---- Plain lists ----

  /** `parseListSection`: the bullet lines, marker stripped and cleaned, in order. */
  function ListSection(lines: seq<string>): (r: seq<string>)
    ensures |r| <= |lines|
    ensures forall item :: item in r ==> IsTrimmed(item)
    decreases |lines|
  {
    if |lines| == 0 then []
    else
      var l := Trim(lines[|lines| - 1]);
      ListSection(lines[..|lines| - 1]) + (if IsBullet(l) then [CleanText(l[2..])] else [])
  }

  /**
   * A single line gives its text without the two-character marker, cleaned,
   * when it is a bullet, and nothing otherwise; with the append law of
   * `ListSectionProperties` this fixes every entry of the result.
   */
  lemma ListSectionLine(l: string)
    ensures ListSection([l]) == if IsBullet(Trim(l)) then [CleanText(Trim(l)[2..])] else []
  {
    assert [l][..0] == [];
  }

  /** The number of bullet lines. */
  function CountBullets(lines: seq<string>): nat
    decreases |lines|
  {
    if |lines| == 0 then 0
    else CountBullets(lines[..|lines| - 1]) + (if IsBullet(Trim(lines[|lines| - 1])) then 1 else 0)
  }

  /** One entry per bullet line; lines of a list section can be concatenated. */
  lemma {:induction false} ListSectionProperties(a: seq<string>, b: seq<string>)
    ensures |ListSection(a)| == CountBullets(a)
    ensures ListSection(a + b) == ListSection(a) + ListSection(b)
    decreases |a| + |b|
  {
    if |b| == 0 {
      assert a + b == a;
      if |a| > 0 {
        ListSectionProperties(a[..|a| - 1], []);
      }
    } else {
      assert (a + b)[..|a + b| - 1] == a + b[..|b| - 1];
      ListSectionProperties(a, b[..|b| - 1]);
    }
  }
}
