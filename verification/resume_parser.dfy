/**
 * `parseResume` of src/utils/resumeParser.ts: the header line gives the name
 * and title, the first `> ` line the contact details, and every `# ` line at
 * the start of a line of the file opens a section that is dispatched on its
 * upper-cased title. The result is the source's `Partial<ResumeConfig>`: a
 * field stays absent until a line or a section sets it.
 */
module ResumeParser {
  import opened Wrappers
  import opened JsText
  import opened ResumeMarkup
  import opened ResumeSections

  datatype Contact = Contact(
    phone: Option<string>, email: Option<string>, website: Option<string>,
    location: Option<string>, linkedin: Option<string>)

  datatype Resume = Resume(
    name: Option<string>,
    title: Option<string>,
    contact: Option<Contact>,
    professionalOverview: Option<string>,
    experience: Option<seq<ExperienceItem>>,
    education: Option<seq<EducationItem>>,
    certifications: Option<seq<string>>,
    skills: Option<seq<SkillCategory>>,
    expertises: Option<seq<string>>,
    industries: Option<seq<string>>)

  const EmptyResume := Resume(None, None, None, None, None, None, None, None, None, None)
  const EmptyContact := Contact(None, None, None, None, None)

  /** `lines.find(l => l.startsWith(prefix))`. */
  function FirstLine(lines: seq<string>, prefix: string): (r: Option<string>)
    ensures r.Some? ==> StartsWith(r.value, prefix) && r.value in lines
    ensures r.Some? ==> (exists i :: 0 <= i < |lines| && lines[i] == r.value &&
                                     (forall j :: 0 <= j < i ==> !StartsWith(lines[j], prefix)))
    ensures r.None? ==> forall i :: 0 <= i < |lines| ==> !StartsWith(lines[i], prefix)
    decreases |lines|
  {
    if |lines| == 0 then None
    else if StartsWith(lines[0], prefix) then Some(lines[0])
    else
      var r := FirstLine(lines[1..], prefix);
      assert forall i :: 1 <= i < |lines| ==> lines[i] == lines[1..][i - 1];
      assert r.Some? ==> (exists i :: 0 <= i < |lines| && lines[i] == r.value &&
                                      (forall j :: 0 <= j < i ==> !StartsWith(lines[j], prefix))) by {
        if r.Some? {
          var i :| 0 <= i < |lines[1..]| && lines[1..][i] == r.value &&
            (forall j :: 0 <= j < i ==> !StartsWith(lines[1..][j], prefix));
          assert lines[i + 1] == r.value;
        }
      }
      r
  }

  // ---- Header ----

  /** The name and title of a `# Name | Title | ...` line. */
  function Header(line: string): (r: (string, string))
    requires StartsWith(line, "# ")
  {
    var parts := TrimAll(Split(line[2..], '|'));
    (parts[0], Join(parts[1..], " | "))
  }

  /** A header with one `|` between trimmed texts gives them back as name and title. */
  lemma HeaderNameTitle(name: string, title: string)
    requires '|' !in name && '|' !in title && IsTrimmed(name) && IsTrimmed(title)
    ensures StartsWith("# " + name + "|" + title, "# ")
    ensures Header("# " + name + "|" + title) == (name, title)
  {
    var line := "# " + name + "|" + title;
    assert line[..2] == "# ";
    assert line[2..] == name + ['|'] + title;
    SplitAtFirst(name, '|', title);
    SplitWithoutSeparator(title, '|');
    TrimOfTrimmed(name);
    TrimOfTrimmed(title);
    var parts := TrimAll(Split(line[2..], '|'));
    assert parts == [name, title];
    assert parts[1..] == [title];
  }

  // ---- Contact ----

  /**
   * One field of a contact part: a part starting with the prefix sets the
   * field to the rest of the part, trimmed; any other part leaves it.
   */
  function Field(current: Option<string>, part: string, prefix: string): (r: Option<string>)
    ensures StartsWith(part, prefix) ==> r.Some? && |r.value| <= |part| - |prefix|
    ensures !StartsWith(part, prefix) ==> r == current
  {
    if StartsWith(part, prefix) then Some(Trim(part[|prefix|..])) else current
  }

  /** A part made of the prefix and a value gives the value, trimmed, whatever the field held. */
  lemma FieldValue(current: Option<string>, prefix: string, v: string)
    ensures Field(current, prefix + v, prefix) == Some(Trim(v))
  {
    assert (prefix + v)[..|prefix|] == prefix;
    assert (prefix + v)[|prefix|..] == v;
  }

  /**
   * One `|`-part of the contact line. The five prefix tests are independent
   * and each sets its own field.
   */
  function ContactStep(c: Contact, part: string): Contact {
    Contact(
      Field(c.phone, part, "Phone:"),
      Field(c.email, part, "Email:"),
      Field(c.website, part, "Website:"),
      Field(c.location, part, "Location:"),
      Field(c.linkedin, part, "LinkedIn:"))
  }

  function ContactFold(parts: seq<string>): Contact
    decreases |parts|
  {
    if |parts| == 0 then EmptyContact
    else ContactStep(ContactFold(parts[..|parts| - 1]), parts[|parts| - 1])
  }

  /** The contact parts of a `> ` line. */
  function ContactParts(line: string): seq<string>
    requires StartsWith(line, "> ")
  {
    TrimAll(Split(Trim(line[2..]), '|'))
  }

  /** The value of the last part starting with the prefix: the prefix removed, the rest trimmed. */
  function LastValue(parts: seq<string>, prefix: string): (r: Option<string>)
    ensures r.None? <==> forall i :: 0 <= i < |parts| ==> !StartsWith(parts[i], prefix)
    decreases |parts|
  {
    if |parts| == 0 then None
    else Field(LastValue(parts[..|parts| - 1], prefix), parts[|parts| - 1], prefix)
  }

  /** The value is that of the part with the prefix after which no part has it. */
  lemma {:induction false} LastValueIsLast(parts: seq<string>, prefix: string, i: nat)
    requires i < |parts| && StartsWith(parts[i], prefix)
    requires forall j :: i < j < |parts| ==> !StartsWith(parts[j], prefix)
    ensures LastValue(parts, prefix) == Field(None, parts[i], prefix)
    decreases |parts|
  {
    var n := |parts| - 1;
    if i < n {
      var front := parts[..n];
      assert !StartsWith(parts[n], prefix);
      assert LastValue(parts, prefix) == LastValue(front, prefix);
      assert front[i] == parts[i];
      assert forall j :: i < j < |front| ==> front[j] == parts[j];
      LastValueIsLast(front, prefix, i);
    }
  }

  /** Each contact field holds the value of the last part with its prefix, or stays absent. */
  lemma {:induction false} ContactLastWins(parts: seq<string>)
    ensures ContactFold(parts).phone == LastValue(parts, "Phone:")
    ensures ContactFold(parts).email == LastValue(parts, "Email:")
    ensures ContactFold(parts).website == LastValue(parts, "Website:")
    ensures ContactFold(parts).location == LastValue(parts, "Location:")
    ensures ContactFold(parts).linkedin == LastValue(parts, "LinkedIn:")
    decreases |parts|
  {
    if |parts| > 0 {
      ContactLastWins(parts[..|parts| - 1]);
    }
  }

  // ---- Sections ----

  /**
   * `s.split(/^# /m)`: the pieces between occurrences of `# ` at the start of
   * a line (at the start of `s`, or after a line terminator).
   */
  function Pieces(s: string, atLineStart: bool): (r: seq<string>)
    ensures |r| >= 1
    decreases |s|
  {
    if |s| == 0 then [""]
    else if atLineStart && StartsWith(s, "# ") then [""] + Pieces(s[2..], false)
    else
      var rest := Pieces(s[1..], IsLineTerminator(s[0]));
      [[s[0]] + rest[0]] + rest[1..]
  }

  lemma JoinConsFirst(c: char, rest: seq<string>, sep: string)
    requires |rest| >= 1
    ensures Join([[c] + rest[0]] + rest[1..], sep) == [c] + Join(rest, sep)
  {
    var parts := [[c] + rest[0]] + rest[1..];
    if |rest| > 1 {
      assert parts[1..] == rest[1..];
    }
  }

  /** Splitting at line-start `# ` and joining with `# ` again gives back the text. */
  lemma {:induction false} PiecesJoin(s: string, atLineStart: bool)
    ensures Join(Pieces(s, atLineStart), "# ") == s
    decreases |s|
  {
    if |s| > 0 {
      if atLineStart && StartsWith(s, "# ") {
        PiecesJoin(s[2..], false);
        var rest := Pieces(s[2..], false);
        assert ([""] + rest)[1..] == rest;
        assert s == "# " + s[2..];
      } else {
        PiecesJoin(s[1..], IsLineTerminator(s[0]));
        JoinConsFirst(s[0], Pieces(s[1..], IsLineTerminator(s[0])), "# ");
        assert [s[0]] + s[1..] == s;
      }
    }
  }

  /** Position `k` of a piece is at the start of a line: the piece's own start when `start` holds, else after a line terminator. */
  predicate LineStartAt(p: string, k: nat, start: bool)
    requires k <= |p|
  {
    if k == 0 then start else IsLineTerminator(p[k - 1])
  }

  /** No `# ` in the piece is at the start of a line. */
  predicate NoCut(p: string, start: bool) {
    forall k :: 0 <= k < |p| && StartsWith(p[k..], "# ") ==> !LineStartAt(p, k, start)
  }

  lemma NoCutCons(c: char, q: string, start: bool)
    requires NoCut(q, IsLineTerminator(c))
    requires !(start && StartsWith([c] + q, "# "))
    ensures NoCut([c] + q, start)
  {
    var p := [c] + q;
    forall k | 0 <= k < |p| && StartsWith(p[k..], "# ")
      ensures !LineStartAt(p, k, start)
    {
      if k > 0 {
        assert p[k..] == q[k - 1..];
        assert LineStartAt(p, k, start) == LineStartAt(q, k - 1, IsLineTerminator(c));
      }
    }
  }

  /**
   * Where `split(/^# /m)` cuts: the first piece begins the text; no piece holds
   * a `# ` at the start of a line; and every piece but the last is followed by
   * a `# ` that was at the start of a line (the piece ends with a line
   * terminator, or it is the empty first piece of a text starting with `# `).
   */
  lemma {:induction false} PiecesCut(s: string, atLineStart: bool)
    ensures StartsWith(s, Pieces(s, atLineStart)[0])
    ensures NoCut(Pieces(s, atLineStart)[0], atLineStart)
    ensures forall i :: 1 <= i < |Pieces(s, atLineStart)| ==> NoCut(Pieces(s, atLineStart)[i], false)
    ensures forall i :: 0 <= i < |Pieces(s, atLineStart)| - 1 ==>
      LineStartAt(Pieces(s, atLineStart)[i], |Pieces(s, atLineStart)[i]|, i == 0 && atLineStart)
    decreases |s|
  {
    var r := Pieces(s, atLineStart);
    if |s| == 0 {
    } else if atLineStart && StartsWith(s, "# ") {
      var rest := Pieces(s[2..], false);
      PiecesCut(s[2..], false);
      assert r == [""] + rest;
      assert forall i :: 1 <= i < |r| ==> r[i] == rest[i - 1];
    } else {
      var start := IsLineTerminator(s[0]);
      var rest := Pieces(s[1..], start);
      PiecesCut(s[1..], start);
      var first := [s[0]] + rest[0];
      assert r == [first] + rest[1..];
      assert StartsWith(s, first) by {
        assert s == [s[0]] + s[1..];
      }
      if StartsWith(first, "# ") {
        assert s[..2] == first[..2];
      }
      NoCutCons(s[0], rest[0], atLineStart);
      assert forall i :: 1 <= i < |r| ==> r[i] == rest[i];
      if |r| > 1 {
        assert first[|first| - 1] == if |rest[0]| == 0 then s[0] else rest[0][|rest[0]| - 1];
      }
    }
  }

  /** The section texts: every piece after the first. */
  function Sections(content: string): seq<string> {
    Pieces(content, true)[1..]
  }

  /** The text looked for in titles to skip the name section. */
  function SkipTitle(name: Option<string>): (r: string)
    ensures r != ""
  {
    if name.Some? && name.value != "" then ToUpper(name.value) else "HUAJUN CHEN"
  }

  /** The upper-cased title line of a section and the lines after it. */
  function SectionParts(raw: string): (string, seq<string>) {
    var lines := Split(Trim(raw), '\n');
    (ToUpper(Trim(lines[0])), lines[1..])
  }

  predicate KnownTitle(title: string) {
    || title == "PROFESSIONAL OVERVIEW" || title == "EXPERIENCE" || title == "EDUCATION"
    || title == "CERTIFICATION" || title == "SKILLS" || Includes(title, "EXPERTISE") || Includes(title, "INDUSTRY")
  }

  /**
   * One section: skipped when its title contains the name, otherwise the first
   * matching title sets its field. Name, title and contact never change.
   */
  function ApplySection(r: Resume, raw: string): (r': Resume)
    ensures r'.name == r.name && r'.title == r.title && r'.contact == r.contact
    ensures Includes(SectionParts(raw).0, SkipTitle(r.name)) ==> r' == r
    ensures !KnownTitle(SectionParts(raw).0) ==> r' == r
  {
    var (title, content) := SectionParts(raw);
    if Includes(title, SkipTitle(r.name)) then r
    else if title == "PROFESSIONAL OVERVIEW" then r.(professionalOverview := Some(Trim(Join(content, " "))))
    else if title == "EXPERIENCE" then r.(experience := Some(Experience(content)))
    else if title == "EDUCATION" then r.(education := Some(Education(content)))
    else if title == "CERTIFICATION" then r.(certifications := Some(ListSection(content)))
    else if title == "SKILLS" then r.(skills := Some(Skills(content)))
    else if Includes(title, "EXPERTISE") then r.(expertises := Some(ListSection(content)))
    else if Includes(title, "INDUSTRY") then r.(industries := Some(ListSection(content)))
    else r
  }

  /**
   * What a section that is not skipped sets: each exact title its own field
   * from its parser, then a title containing `EXPERTISE` the expertises, and
   * only otherwise one containing `INDUSTRY` the industries.
   */
  lemma ApplySectionDispatch(r: Resume, raw: string)
    ensures
      var title, content := SectionParts(raw).0, SectionParts(raw).1;
      !Includes(title, SkipTitle(r.name)) ==>
        && (title == "PROFESSIONAL OVERVIEW" ==> ApplySection(r, raw) == r.(professionalOverview := Some(Trim(Join(content, " ")))))
        && (title == "EXPERIENCE" ==> ApplySection(r, raw) == r.(experience := Some(Experience(content))))
        && (title == "EDUCATION" ==> ApplySection(r, raw) == r.(education := Some(Education(content))))
        && (title == "CERTIFICATION" ==> ApplySection(r, raw) == r.(certifications := Some(ListSection(content))))
        && (title == "SKILLS" ==> ApplySection(r, raw) == r.(skills := Some(Skills(content))))
    ensures
      var title, content := SectionParts(raw).0, SectionParts(raw).1;
      // The two inclusive tests come after the exact titles, EXPERTISE first.
      && !Includes(title, SkipTitle(r.name))
      && title !in {"PROFESSIONAL OVERVIEW", "EXPERIENCE", "EDUCATION", "CERTIFICATION", "SKILLS"}
      ==>
        && (Includes(title, "EXPERTISE") ==> ApplySection(r, raw) == r.(expertises := Some(ListSection(content))))
        && (!Includes(title, "EXPERTISE") && Includes(title, "INDUSTRY") ==> ApplySection(r, raw) == r.(industries := Some(ListSection(content))))
  {
  }

  function ApplySections(r: Resume, sections: seq<string>): (r': Resume)
    ensures r'.name == r.name && r'.title == r.title && r'.contact == r.contact
    decreases |sections|
  {
    if |sections| == 0 then r
    else ApplySection(ApplySections(r, sections[..|sections| - 1]), sections[|sections| - 1])
  }

  /** The input's lines, each trimmed. */
  function Lines(content: string): seq<string> {
    TrimAll(Split(content, '\n'))
  }

  /** The resume after the header and contact lines, before the sections. */
  function Preamble(lines: seq<string>): Resume {
    var header := FirstLine(lines, "# ");
    var withHeader :=
      if header.Some? then EmptyResume.(name := Some(Header(header.value).0), title := Some(Header(header.value).1))
      else EmptyResume;
    // The lines are trimmed already, so `l.trim().startsWith('> ')` tests the line itself.
    var contact := FirstLine(lines, "> ");
    if contact.Some? then withHeader.(contact := Some(ContactFold(ContactParts(contact.value))))
    else withHeader
  }

  /** `parseResume`. */
  function ParsedResume(content: string): Resume {
    ApplySections(Preamble(Lines(content)), Sections(content))
  }

  /** Name, title and contact come from the header and contact lines alone. */
  lemma HeaderAndContact(content: string)
    ensures
      var lines := Lines(content);
      var r := ParsedResume(content);
      && (FirstLine(lines, "# ").None? ==> r.name.None? && r.title.None?)
      && (FirstLine(lines, "# ").Some? ==>
            r.name == Some(Header(FirstLine(lines, "# ").value).0) &&
            r.title == Some(Header(FirstLine(lines, "# ").value).1))
      && (FirstLine(lines, "> ").None? ==> r.contact.None?)
      && (FirstLine(lines, "> ").Some? ==> r.contact == Some(ContactFold(ContactParts(FirstLine(lines, "> ").value))))
  {
  }

  lemma ApplySectionsSnoc(r: Resume, sections: seq<string>, raw: string)
    ensures ApplySections(r, sections + [raw]) == ApplySection(ApplySections(r, sections), raw)
  {
    assert (sections + [raw])[..|sections|] == sections;
  }

  /** Applying the sections of `a + b` is applying those of `a`, then those of `b`. */
  lemma {:induction false} ApplySectionsAppend(r: Resume, a: seq<string>, b: seq<string>)
    ensures ApplySections(r, a + b) == ApplySections(ApplySections(r, a), b)
    decreases |b|
  {
    if |b| == 0 {
      assert a + b == a;
    } else {
      var b' := b[..|b| - 1];
      ApplySectionsAppend(r, a, b');
      assert (a + b)[..|a + b| - 1] == a + b';
    }
  }

  /** A section with an unknown title leaves the resume as it was, wherever it comes. */
  lemma IgnoredSectionsChangeNothing(r: Resume, before: seq<string>, raw: string, after: seq<string>)
    requires !KnownTitle(SectionParts(raw).0)
    ensures ApplySections(r, before + [raw] + after) == ApplySections(r, before + after)
  {
    ApplySectionsAppend(r, before + [raw], after);
    ApplySectionsAppend(r, before, after);
    ApplySectionsSnoc(r, before, raw);
  }

  /** The `forEach` over the contact parts. */
  method ReadContact(parts: seq<string>) returns (contact: Contact)
    ensures contact == ContactFold(parts)
  {
    contact := EmptyContact;
    for i := 0 to |parts|
      invariant contact == ContactFold(parts[..i])
    {
      assert parts[..i + 1][..i] == parts[..i];
      contact := ContactStep(contact, parts[i]);
    }
    assert parts[..|parts|] == parts;
  }

  /** The header and contact lookups: the fields set before the sections. */
  method ReadPreamble(lines: seq<string>) returns (resume: Resume)
    ensures resume == Preamble(lines)
  {
    resume := EmptyResume;
    var headerLine := FirstLine(lines, "# ");
    if headerLine.Some? {
      var (name, title) := Header(headerLine.value);
      resume := resume.(name := Some(name), title := Some(title));
    }
    var contactLine := FirstLine(lines, "> ");
    if contactLine.Some? {
      var contact := ReadContact(ContactParts(contactLine.value));
      resume := resume.(contact := Some(contact));
    }
  }

  /** The `forEach` over the sections. */
  method ReadSections(start: Resume, sections: seq<string>) returns (resume: Resume)
    ensures resume == ApplySections(start, sections)
  {
    resume := start;
    for i := 0 to |sections|
      invariant resume == ApplySections(start, sections[..i])
    {
      assert sections[..i + 1][..i] == sections[..i];
      resume := ApplySection(resume, sections[i]);
    }
    assert sections[..|sections|] == sections;
  }

  /** `parseResume`. */
  method ParseResume(fileContent: string) returns (resume: Resume)
    ensures resume == ParsedResume(fileContent)
  {
    var lines := Lines(fileContent);
    resume := ReadPreamble(lines);
    resume := ReadSections(resume, Sections(fileContent));
  }
}
