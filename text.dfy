/** The pure string logic of the session package (internal/session/session.go and processor.go):
    turning a notes heading into a directory slug, and filling a prompt template. */
module SessionText {
  import opened Errors
  import opened Strings

  // ---------------------------------------------------------------------------------------
  // slugify

  /** The longest slug kept, in characters. */
  const MaxSlug := 50

  /** The characters the slug keeps: the class [a-z0-9-] of the source's regular expression. */
  predicate IsSlugChar(c: char)
  {
    ('a' <= c <= 'z') || ('0' <= c <= '9') || c == '-'
  }

  /** What a slug is: only [a-z0-9-], no hyphen at either end, no two hyphens in a row, and at
      most MaxSlug characters. */
  predicate IsSlug(s: string)
  {
    && SlugChars(s)
    && (s == [] || (s[0] != '-' && s[|s| - 1] != '-'))
    && NoDoubleHyphen(s)
    && |s| <= MaxSlug
  }

  predicate NoDoubleHyphen(s: string)
  {
    forall i :: 0 <= i < |s| - 1 ==> !(s[i] == '-' && s[i + 1] == '-')
  }

  /** unicode.ToLower, one character at a time. It is exact for ASCII and for the only two
      characters outside ASCII whose lower case is ASCII (U+0130 'İ' gives 'i', U+212A KELVIN SIGN
      gives 'k'); any other character is left as it is, which differs from Go only on characters
      whose lower case is outside ASCII and that the slug drops in either case. */
  function Lower(c: char): char
  {
    if 'A' <= c <= 'Z' then (c as int + 32) as char
    else if c == '\U{0130}' then 'i'
    else if c == '\U{212A}' then 'k'
    else c
  }

  /** strings.ToLower. */
  function LowerAll(s: string): (r: string)
    ensures |r| == |s| && forall i :: 0 <= i < |s| ==> r[i] == Lower(s[i])
  {
    seq(|s|, i requires 0 <= i < |s| => Lower(s[i]))
  }

  /** strings.ReplaceAll(s, " ", "-"): only the ASCII space becomes a hyphen. */
  function SpacesToHyphens(s: string): (r: string)
    ensures |r| == |s| && forall i :: 0 <= i < |s| ==> r[i] == if s[i] == ' ' then '-' else s[i]
  {
    seq(|s|, i requires 0 <= i < |s| => if s[i] == ' ' then '-' else s[i])
  }

  /** Every character is one the slug keeps. */
  predicate SlugChars(s: string)
  {
    forall i :: 0 <= i < |s| ==> IsSlugChar(s[i])
  }

  /** Deleting every run of characters outside [a-z0-9-] (the first regular expression). */
  function KeepSlugChars(s: string): (r: string)
    ensures SlugChars(r)
    ensures SlugChars(s) ==> r == s
  {
    if s == [] then []
    else if IsSlugChar(s[0]) then [s[0]] + KeepSlugChars(s[1..])
    else KeepSlugChars(s[1..])
  }

  /** The filter works piece by piece. */
  lemma {:induction false} KeepSlugCharsAppend(a: string, b: string)
    ensures KeepSlugChars(a + b) == KeepSlugChars(a) + KeepSlugChars(b)
  {
    if a == [] {
      assert a + b == b;
    } else {
      assert (a + b)[0] == a[0];
      assert (a + b)[1..] == a[1..] + b;
      KeepSlugCharsAppend(a[1..], b);
    }
  }

  /** Replacing every run of hyphens by one hyphen (the second regular expression). */
  function CollapseHyphens(s: string): (r: string)
    ensures |r| <= |s|
    ensures s != [] ==> r != [] && r[0] == s[0]
    ensures SlugChars(s) ==> SlugChars(r)
    ensures NoDoubleHyphen(r)
    ensures NoDoubleHyphen(s) ==> r == s
  {
    if |s| <= 1 then s
    else if s[0] == '-' && s[1] == '-' then CollapseHyphens(s[1..])
    else
      var rest := CollapseHyphens(s[1..]);
      assert NoDoubleHyphen(s) ==> NoDoubleHyphen(s[1..]);
      [s[0]] + rest
  }

  /** A piece of a text keeps its characters and its lack of double hyphens. */
  lemma SlicePreserves(s: string, lo: int, hi: int)
    requires 0 <= lo <= hi <= |s|
    ensures SlugChars(s) ==> SlugChars(s[lo..hi])
    ensures NoDoubleHyphen(s) ==> NoDoubleHyphen(s[lo..hi])
  {
    assert forall i :: 0 <= i < hi - lo ==> s[lo..hi][i] == s[lo + i];
  }

  function TrimLeftHyphens(s: string): (r: string)
    ensures |r| <= |s| && r == s[|s| - |r|..]
    ensures r == [] || r[0] != '-'
    ensures (s == [] || s[0] != '-') ==> r == s
    ensures SlugChars(s) ==> SlugChars(r)
    ensures NoDoubleHyphen(s) ==> NoDoubleHyphen(r)
  {
    if s != [] && s[0] == '-' then
      SlicePreserves(s, 1, |s|);
      TrimLeftHyphens(s[1..])
    else s
  }

  function TrimRightHyphens(s: string): (r: string)
    ensures |r| <= |s| && r == s[..|r|]
    ensures r == [] || r[|r| - 1] != '-'
    ensures (s == [] || s[|s| - 1] != '-') ==> r == s
    ensures SlugChars(s) ==> SlugChars(r)
    ensures NoDoubleHyphen(s) ==> NoDoubleHyphen(r)
  {
    if s != [] && s[|s| - 1] == '-' then
      SlicePreserves(s, 0, |s| - 1);
      TrimRightHyphens(s[..|s| - 1])
    else s
  }

  /** strings.Trim(s, "-"): the hyphens at both ends go; the rest of `s` is kept as it is. */
  function TrimHyphens(s: string): (r: string)
    ensures |r| <= |s|
    ensures r == [] || (r[0] != '-' && r[|r| - 1] != '-')
    ensures (s == [] || (s[0] != '-' && s[|s| - 1] != '-')) ==> r == s
    ensures SlugChars(s) ==> SlugChars(r)
    ensures NoDoubleHyphen(s) ==> NoDoubleHyphen(r)
  {
    var l := TrimLeftHyphens(s);
    var r := TrimRightHyphens(l);
    assert r != [] ==> r[0] == l[0];
    r
  }

  /** The first MaxSlug characters. The source counts runes; after the filter every character is
      ASCII, so runes and bytes agree. */
  function Truncate(s: string): (r: string)
    ensures |r| <= |s| && |r| <= MaxSlug
    ensures |s| <= MaxSlug ==> r == s
    ensures SlugChars(s) ==> SlugChars(r)
    ensures NoDoubleHyphen(s) ==> NoDoubleHyphen(r)
  {
    if |s| > MaxSlug then
      SlicePreserves(s, 0, MaxSlug);
      s[..MaxSlug]
    else s
  }

  /** slugify: lower case, spaces to hyphens, drop everything outside [a-z0-9-], collapse hyphen
      runs, trim hyphens, keep at most 50 characters, trim hyphens again. */
  function Slugify(text: string): (r: string)
    ensures IsSlug(r)
  {
    TrimHyphens(Truncate(TrimHyphens(CollapseHyphens(KeepSlugChars(SpacesToHyphens(LowerAll(text)))))))
  }

  /** Every step of slugify leaves a slug unchanged. */
  lemma SlugifyFixesSlugs(s: string)
    requires IsSlug(s)
    ensures Slugify(s) == s
  {
    assert LowerAll(s) == s;
    assert SpacesToHyphens(s) == s;
  }

  /** slugify is idempotent. */
  lemma SlugifyIdempotent(text: string)
    ensures Slugify(Slugify(text)) == Slugify(text)
  {
    SlugifyFixesSlugs(Slugify(text));
  }

  lemma LowerAllAppend(a: string, b: string)
    ensures LowerAll(a + b) == LowerAll(a) + LowerAll(b)
  {
    assert forall i :: 0 <= i < |a + b| ==> (a + b)[i] == if i < |a| then a[i] else b[i - |a|];
  }

  lemma SpacesToHyphensAppend(a: string, b: string)
    ensures SpacesToHyphens(a + b) == SpacesToHyphens(a) + SpacesToHyphens(b)
  {
    assert forall i :: 0 <= i < |a + b| ==> (a + b)[i] == if i < |a| then a[i] else b[i - |a|];
  }

  lemma ExampleWordsLower()
    ensures LowerAll("Q3 ") == "q3 " && LowerAll("Planning ") == "planning " && LowerAll("Review!!") == "review!!"
  {
  }

  lemma ExampleWordsHyphens()
    ensures SpacesToHyphens("q3 ") == "q3-" && SpacesToHyphens("planning ") == "planning-"
    ensures SpacesToHyphens("review!!") == "review!!"
  {
  }

  lemma KeepDropsJunk(a: string, b: string)
    requires SlugChars(a)
    requires forall i :: 0 <= i < |b| ==> !IsSlugChar(b[i])
    ensures KeepSlugChars(a + b) == a
  {
    KeepSlugCharsAppend(a, b);
    DropAll(b);
  }

  lemma {:induction false} DropAll(b: string)
    requires forall i :: 0 <= i < |b| ==> !IsSlugChar(b[i])
    ensures KeepSlugChars(b) == []
  {
    if b != [] {
      DropAll(b[1..]);
    }
  }

  lemma ExampleLowered(text: string)
    requires text == "Q3 Planning Review!!"
    ensures LowerAll(text) == "q3 planning review!!"
  {
    assert text == "Q3 " + ("Planning " + "Review!!");
    LowerAllAppend("Q3 ", "Planning " + "Review!!");
    LowerAllAppend("Planning ", "Review!!");
    ExampleWordsLower();
  }

  lemma ExampleHyphenated(lowered: string)
    requires lowered == "q3 planning review!!"
    ensures SpacesToHyphens(lowered) == "q3-planning-review" + "!!"
  {
    assert lowered == "q3 " + ("planning " + "review!!");
    SpacesToHyphensAppend("q3 ", "planning " + "review!!");
    SpacesToHyphensAppend("planning ", "review!!");
    ExampleWordsHyphens();
  }

  /** A typical heading: "Q3 Planning Review!!" becomes "q3-planning-review". */
  lemma SlugifyExample(text: string)
    requires text == "Q3 Planning Review!!"
    ensures Slugify(text) == "q3-planning-review"
  {
    ExampleLowered(text);
    ExampleHyphenated(LowerAll(text));
    var slug := "q3-planning-review";
    KeepDropsJunk(slug, "!!");
    assert IsSlug(slug);
    SlugifyFixesSlugs(slug);
  }

  // ---------------------------------------------------------------------------------------
  // The heading that renames a session directory

  const HeadingMarker := "# "

  /** The slug the first line of the notes asks for: present only when that literal first line
      starts with "# ", the rest of it is not blank once trimmed, and its slug is not empty. This
      is the rule of extractAndRenameIfNeeded, inlined again in ProcessFile. */
  function HeadingSlug(notes: string): (r: Option<string>)
    ensures r.Some? ==> IsSlug(r.value) && r.value != ""
  {
    var first := FirstLine(notes);
    if !HasPrefix(first, HeadingMarker) then None
    else
      var heading := TrimSpace(TrimPrefix(first, HeadingMarker));
      if heading == "" then None
      else
        var slug := Slugify(heading);
        if slug == "" then None else Some(slug)
  }

  /** The rule of HeadingSlug: a slug exactly when the first line starts with "# ", the rest
      of it is not blank once trimmed and its slug is not empty; the slug is that of the trimmed
      rest. */
  lemma HeadingSlugRule(notes: string)
    ensures HeadingSlug(notes).Some? <==>
      && HasPrefix(FirstLine(notes), HeadingMarker)
      && TrimSpace(FirstLine(notes)[|HeadingMarker|..]) != ""
      && Slugify(TrimSpace(FirstLine(notes)[|HeadingMarker|..])) != ""
    ensures HeadingSlug(notes).Some? ==> HeadingSlug(notes).value == Slugify(TrimSpace(FirstLine(notes)[|HeadingMarker|..]))
  {
  }

  /** Only the literal first line counts: notes that open with a blank line never rename, even
      when a heading follows. */
  lemma HeadingFromLiteralFirstLine(rest: string)
    ensures HeadingSlug("\n" + rest) == None
  {
    assert FirstLine("\n" + rest) == "";
  }

  /** A heading made only of characters the slug drops does not rename. */
  lemma HeadingWithoutSlugCharacters(notes: string)
    requires notes == "# !!"
    ensures HeadingSlug(notes) == None
  {
    BangHeading(notes);
    BangsHaveNoSlug();
  }

  /** The heading text of "# !!" is "!!". */
  lemma BangHeading(notes: string)
    requires notes == "# !!"
    ensures FirstLine(notes) == notes && HasPrefix(notes, HeadingMarker)
    ensures TrimSpace(TrimPrefix(notes, HeadingMarker)) == "!!"
  {
    assert notes == HeadingMarker + "!!";
    FirstLineWithoutNewline(notes);
    assert TrimSpace("!!") == "!!";
  }

  /** Nothing of "!!" survives slugify. */
  lemma BangsHaveNoSlug()
    ensures Slugify("!!") == ""
  {
    var bangs := "!!";
    var lowered := LowerAll(bangs);
    assert Lower('!') == '!';
    assert lowered == bangs by {
      assert |lowered| == 2 && lowered[0] == '!' && lowered[1] == '!';
    }
    var hyphened := SpacesToHyphens(lowered);
    assert hyphened == bangs by {
      assert |hyphened| == 2 && hyphened[0] == '!' && hyphened[1] == '!';
    }
    DropAll(bangs);
  }

  /** A text without a newline is its own first line. */
  lemma FirstLineWithoutNewline(s: string)
    requires '\n' !in s
    ensures FirstLine(s) == s
  {
  }

  // ---------------------------------------------------------------------------------------
  // Prompt templates

  const TranscriptionPlaceholder := "{{TRANSCRIPTION}}"
  const NotesPlaceholder := "{{NOTES}}"

  /** The file-name suffix of a template: ".txt" with notes, "_no_notes.txt" without. */
  function TemplateSuffix(hasNotes: bool): string
  {
    if hasNotes then ".txt" else "_no_notes.txt"
  }

  /** fillPromptTemplate: every {{TRANSCRIPTION}} is replaced first, then every {{NOTES}}. */
  function Fill(template: string, transcription: string, notes: string): string
  {
    ReplaceAll(ReplaceAll(template, TranscriptionPlaceholder, transcription), NotesPlaceholder, notes)
  }

  /** A template without placeholders is the prompt itself. */
  lemma FillWithoutPlaceholders(template: string, transcription: string, notes: string)
    requires !Occurs(template, TranscriptionPlaceholder) && !Occurs(template, NotesPlaceholder)
    ensures Fill(template, transcription, notes) == template
  {
    ReplaceAllAbsent(template, TranscriptionPlaceholder, transcription);
    ReplaceAllAbsent(template, NotesPlaceholder, notes);
  }

  /** The notes placeholder does not contain the transcription placeholder, so a text around
      it free of braces holds no transcription placeholder either. */
  lemma NoTranscriptionPlaceholderAround(m: string, b: string)
    requires '{' !in m && '{' !in b
    ensures !Occurs(m + NotesPlaceholder + b, TranscriptionPlaceholder)
  {
    var s := m + NotesPlaceholder + b;
    var k := |m|;
    assert forall j :: 0 <= j < k ==> s[j] == m[j];
    assert forall j :: k + |NotesPlaceholder| <= j < |s| ==> s[j] == b[j - k - |NotesPlaceholder|];
    assert s[k + 1] == '{' && s[k + 2] == 'N';
    assert forall j :: k + 2 <= j < k + |NotesPlaceholder| ==> s[j] != '{';
    forall i | 0 <= i <= |s| - |TranscriptionPlaceholder|
      ensures !OccursAt(s, TranscriptionPlaceholder, i)
    {
      if s[i] == '{' && s[i + 1] == '{' {
        assert i == k;
        assert s[i..i + |TranscriptionPlaceholder|][2] == 'N';
      } else {
        assert s[i..i + |TranscriptionPlaceholder|][0] == s[i];
        assert s[i..i + |TranscriptionPlaceholder|][1] == s[i + 1];
      }
    }
  }

  /** A template with one {{TRANSCRIPTION}} and one {{NOTES}} after it, and no other braces,
      becomes the text around them with the transcription and the notes in their places, as
      long as neither of those holds a brace. */
  lemma {:induction false} FillBoth(a: string, m: string, b: string, transcription: string, notes: string)
    requires '{' !in a && '{' !in m && '{' !in b
    requires '{' !in transcription && '{' !in notes
    ensures Fill(a + TranscriptionPlaceholder + m + NotesPlaceholder + b, transcription, notes)
         == a + transcription + m + notes + b
  {
    var rest := m + NotesPlaceholder + b;
    assert a + TranscriptionPlaceholder + m + NotesPlaceholder + b == a + TranscriptionPlaceholder + rest;
    NoEarlierOccurrence(a, TranscriptionPlaceholder);
    ReplaceAllSplice(a, TranscriptionPlaceholder, rest, transcription);
    NoTranscriptionPlaceholderAround(m, b);
    ReplaceAllAbsent(rest, TranscriptionPlaceholder, transcription);
    var front := a + transcription + m;
    assert a + transcription + rest == front + NotesPlaceholder + b;
    NoEarlierOccurrence(front, NotesPlaceholder);
    ReplaceAllSplice(front, NotesPlaceholder, b, notes);
    FirstCharAbsent(b, NotesPlaceholder);
    ReplaceAllAbsent(b, NotesPlaceholder, notes);
  }

  /** A template with one {{TRANSCRIPTION}} and no other braces becomes the text around it with
      the transcription in its place; the notes are not used. */
  lemma {:induction false} FillTranscriptionOnly(a: string, b: string, transcription: string, notes: string)
    requires '{' !in a && '{' !in b && '{' !in transcription
    ensures Fill(a + TranscriptionPlaceholder + b, transcription, notes) == a + transcription + b
  {
    NoEarlierOccurrence(a, TranscriptionPlaceholder);
    ReplaceAllSplice(a, TranscriptionPlaceholder, b, transcription);
    FirstCharAbsent(b, TranscriptionPlaceholder);
    ReplaceAllAbsent(b, TranscriptionPlaceholder, transcription);
    FirstCharAbsent(a + transcription + b, NotesPlaceholder);
    ReplaceAllAbsent(a + transcription + b, NotesPlaceholder, notes);
  }

  /** Filling each placeholder with itself gives the template back. */
  lemma FillWithPlaceholdersIsIdentity(template: string)
    ensures Fill(template, TranscriptionPlaceholder, NotesPlaceholder) == template
  {
    ReplaceAllSelf(template, TranscriptionPlaceholder);
    ReplaceAllSelf(template, NotesPlaceholder);
  }

  /** The order matters: a transcription that itself contains "{{NOTES}}" has it replaced by the
      notes, while notes containing "{{TRANSCRIPTION}}" are left as they are. */
  lemma FillOrderMatters(notes: string)
    ensures Fill(TranscriptionPlaceholder, NotesPlaceholder, notes) == notes
    ensures Fill(NotesPlaceholder, "spoken", TranscriptionPlaceholder) == TranscriptionPlaceholder
  {
    assert ReplaceAll(TranscriptionPlaceholder, TranscriptionPlaceholder, NotesPlaceholder) == NotesPlaceholder by {
      assert ReplaceAll([], TranscriptionPlaceholder, NotesPlaceholder) == [];
      assert TranscriptionPlaceholder[|TranscriptionPlaceholder|..] == [];
    }
    assert ReplaceAll(NotesPlaceholder, NotesPlaceholder, notes) == notes by {
      assert ReplaceAll([], NotesPlaceholder, notes) == [];
      assert NotesPlaceholder[|NotesPlaceholder|..] == [];
    }
    assert ReplaceAll(NotesPlaceholder, TranscriptionPlaceholder, "spoken") == NotesPlaceholder;
    assert ReplaceAll(NotesPlaceholder, NotesPlaceholder, TranscriptionPlaceholder) == TranscriptionPlaceholder by {
      assert ReplaceAll([], NotesPlaceholder, TranscriptionPlaceholder) == [];
      assert NotesPlaceholder[|NotesPlaceholder|..] == [];
    }
  }
}
