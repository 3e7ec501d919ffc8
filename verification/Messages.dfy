/** Messages as the phone writes them: how the text of a prompt is put together, how a file is printed in it, and which
    language a file or a fence has. */
module Messages {
  import opened Text
  import opened Escaping
  import opened Regex
  import opened Inline
  import opened Highlight
  import opened Markdown
  import opened Attachments
  import Recognisers
  import Replacements

  // --- The language of a file ----------------------------------------------------------------------

  predicate IsLetterOrDigit(c: char) { 'a' <= c <= 'z' || 'A' <= c <= 'Z' || '0' <= c <= '9' }

  /** `\.([a-z0-9]+)$`, ignoring case */
  const EXTENSION: Regex := Seq(Class(Is('.')), Seq(Group(AtLeast(1, IsLetterOrDigit)), END))

  /** What `exec` finds with an expression that may match anywhere: the first position where it matches. */
  function Search(r: Regex, s: string, i: nat): Option<At>
    requires i <= |s|
    decreases |s| - i
  {
    if Try(r, s, At(i, [])).Some? then Try(r, s, At(i, [])) else if i < |s| then Search(r, s, i + 1) else None
  }

  lemma DotTry(s: string, i: nat)
    requires i < |s|
    ensures var e := Stop(IsLetterOrDigit, s, i + 1);
      Try(EXTENSION, s, At(i, [])) == if s[i] == '.' && i + 1 < e == |s| then Some(At(|s|, [i + 1, |s|])) else None
  {
    hide *;
    DotSteps(s, i);
    forall y: At | y.pos < |s| && IsLetterOrDigit(s[y.pos]) ensures Try(END, s, y).None? { Recognisers.EndTry(s, y); }
    Replacements.GroupTry(IsLetterOrDigit, END, s, At(i + 1, []));
    var e := Stop(IsLetterOrDigit, s, i + 1);
    assert [] + [i + 1, e] == [i + 1, e];
    Recognisers.EndTry(s, At(e, [i + 1, e]));
  }

  lemma DotSteps(s: string, i: nat)
    requires i < |s|
    ensures Try(EXTENSION, s, At(i, []))
         == if s[i] == '.' then Try(Seq(Group(AtLeast(1, IsLetterOrDigit)), END), s, At(i + 1, [])) else None
  {
    hide Try, END, Group, AtLeast;
    SeqClass(Is('.'), Seq(Group(AtLeast(1, IsLetterOrDigit)), END), s, At(i, []));
  }

  lemma AtEnd(s: string)
    ensures Try(EXTENSION, s, At(|s|, [])).None?
  {
    hide Try;
    SeqClass(Is('.'), Seq(Group(AtLeast(1, IsLetterOrDigit)), END), s, At(|s|, []));
  }

  /** The last run of letters and digits, from both sides. */
  lemma {:induction false} LastRunIs(s: string)
    ensures var n := LastRun(s);
      && (forall k | n <= k < |s| :: IsLetterOrDigit(s[k]))
      && (n > 0 ==> !IsLetterOrDigit(s[n - 1]))
  {
    if s != "" && IsAlphanumeric(s[|s| - 1]) {
      var t := s[..|s| - 1];
      LastRunIs(t);
      assert forall k | 0 <= k < |t| :: t[k] == s[k];
    }
  }

  /** Only a dot right in front of the last run can begin an extension. */
  lemma DotBefore(s: string, i: nat)
    requires i < |s|
    ensures Try(EXTENSION, s, At(i, [])).Some? <==> s[i] == '.' && i + 1 == LastRun(s) < |s|
    ensures Try(EXTENSION, s, At(i, [])).Some? ==> Try(EXTENSION, s, At(i, [])).value.marks == [i + 1, |s|]
  {
    DotTry(s, i);
    LastRunIs(s);
    var n, e := LastRun(s), Stop(IsLetterOrDigit, s, i + 1);
    if i + 1 == n { StopIs(IsLetterOrDigit, s, n, |s|); }
    hide Try, Stop;
    assert !IsLetterOrDigit('.');
  }

  lemma {:induction false} SearchFinds(s: string, i: nat)
    requires i <= |s|
    ensures var n := LastRun(s);
      if i < n < |s| && s[n - 1] == '.' then Search(EXTENSION, s, i).Some? && Search(EXTENSION, s, i).value.marks == [n, |s|]
      else Search(EXTENSION, s, i).None?
    decreases |s| - i
  {
    hide EXTENSION, Try;
    if i < |s| {
      DotBefore(s, i);
      SearchFinds(s, i + 1);
    } else {
      AtEnd(s);
    }
  }

  /** The extension is the group that the source's expression finds, in lower case. */
  lemma ExtensionIsFound(name: string)
    ensures Extension(name)
         == match Search(EXTENSION, name, 0)
            case Some(m) => LowerCase(Between(name, m, 0, 1))
            case None => ""
  {
    hide EXTENSION, Try, LowerCase;
    SearchFinds(name, 0);
    var n := LastRun(name);
    assert name[n..|name|] == name[n..];
  }

  /** Lower case is taken letter by letter. */
  lemma {:induction false} LowerCaseEach(s: string, k: nat)
    requires k < |s|
    ensures |LowerCase(s)| == |s|
    ensures 'A' <= s[k] <= 'Z' ==> LowerCase(s)[k] as int == s[k] as int + 32
    ensures !('A' <= s[k] <= 'Z') ==> LowerCase(s)[k] == s[k]
    decreases |s|
  {
    if k > 0 { LowerCaseEach(s[1..], k - 1); } else if |s| > 1 { LowerCaseEach(s[1..], 0); }
  }

  /** The extensions that name their language themselves. */
  const OWN_NAMES: set<string> :=
    {"c", "cpp", "css", "csv", "go", "html", "ini", "java", "json", "jsx", "sql", "toml", "tsx", "xml", "yaml"}

  /** The extensions that stand for another language. */
  const OTHER_NAMES: set<string> := {"h", "cc", "js", "mjs", "md", "py", "rb", "rs", "sh", "svg", "ts", "yml"}

  lemma OwnLanguage(extension: string)
    ensures extension in OWN_NAMES ==> LanguageByExtension(extension) == extension
  {
  }

  lemma OtherLanguage(extension: string)
    ensures extension == "h" ==> LanguageByExtension(extension) == "c"
    ensures extension == "cc" ==> LanguageByExtension(extension) == "cpp"
    ensures extension in {"js", "mjs"} ==> LanguageByExtension(extension) == "javascript"
    ensures extension == "md" ==> LanguageByExtension(extension) == "markdown"
    ensures extension == "py" ==> LanguageByExtension(extension) == "python"
    ensures extension == "rb" ==> LanguageByExtension(extension) == "ruby"
    ensures extension == "rs" ==> LanguageByExtension(extension) == "rust"
    ensures extension == "sh" ==> LanguageByExtension(extension) == "bash"
    ensures extension == "svg" ==> LanguageByExtension(extension) == "xml"
    ensures extension == "ts" ==> LanguageByExtension(extension) == "typescript"
    ensures extension == "yml" ==> LanguageByExtension(extension) == "yaml"
  {
  }

  /** Any other extension, known or not, is plain text. */
  lemma NoLanguage(extension: string)
    ensures extension !in OWN_NAMES + OTHER_NAMES ==> LanguageByExtension(extension) == "text"
  {
  }

  // --- The language of a fence ---------------------------------------------------------------------

  /** `[^a-z0-9+#-]` */
  predicate IsDropped(c: char) { !('a' <= c <= 'z' || '0' <= c <= '9' || c in ['+', '#', '-']) }

  lemma LanguageCharsFront(u: string)
    ensures LanguageChars("") == ""
    ensures u != "" ==> LanguageChars(u) == (if IsDropped(u[0]) then "" else [u[0]]) + LanguageChars(u[1..])
  {
  }

  /** What is kept of an unknown language is what the replacement with the source's expression leaves. */
  lemma {:induction false} DroppedReplaces(s: string, i: nat)
    requires i <= |s|
    ensures ReplaceAll(Class(IsDropped), s, i, [], Replacements.Always("")) == (LanguageChars(s[i..]), [])
    decreases |s| - i
  {
    hide *;
    var r, sub := Class(IsDropped), Replacements.Always("");
    LanguageCharsFront(s[i..]);
    ClassTry(IsDropped, s, At(i, []));
    if i == |s| {
      assert s[i..] == "";
      ReplaceEnd(r, s, [], sub);
    } else {
      SuffixOf(s, i, 1);
      DroppedReplaces(s, i + 1);
      if IsDropped(s[i]) {
        Replacements.AlwaysIs("", At(i + 1, []));
        ReplaceHit(r, s, i, [], sub, At(i + 1, []));
      } else {
        ReplaceMiss(r, s, i, [], sub);
      }
    }
  }

  /** `aliases[language] || language.replace(/[^a-z0-9+#-]/g, "").slice(0, 24)` */
  function Named(language: string): string {
    if language in {"cjs", "js", "jsx", "mjs"} then "javascript"
    else if language in {"ts", "tsx"} then "typescript"
    else if language in {"sh", "shell"} then "bash"
    else if language == "py" then "python"
    else if language == "rb" then "ruby"
    else if language == "rs" then "rust"
    else if language == "yml" then "yaml"
    else
      var kept := Replacements.Rewrite(Class(IsDropped), language, Replacements.Always(""));
      if |kept| <= 24 then kept else kept[..24]
  }

  lemma AliasIs(language: string)
    ensures Alias(language).Some? ==> Named(language) == Alias(language).value
    ensures Alias(language).None? ==>
      var kept := Replacements.Rewrite(Class(IsDropped), language, Replacements.Always(""));
      Named(language) == if |kept| <= 24 then kept else kept[..24]
  {
    hide Replacements.Rewrite;
  }

  /** The language of a fence is the trimmed info string up to the first white space or comma, in lower case, by its
      alias or else as far as its characters can stand in a language. */
  lemma FenceLanguage(info: string, word: string)
    requires word <= Trim(info) && (forall i | 0 <= i < |word| :: !IsSpace(word[i]) && word[i] != ',')
    requires |word| < |Trim(info)| ==> IsSpace(Trim(info)[|word|]) || Trim(info)[|word|] == ','
    ensures NormalizeLanguage(info) == Named(Lower(word))
  {
    hide Trim, IsSpace, Lower, Alias, LanguageChars, ReplaceAll, Named;
    var t := Trim(info);
    var n := Run(c => !IsSpace(c) && c != ',', t);
    assert forall i | 0 <= i < |word| :: t[i] == word[i];
    assert n == |word|;
    assert t[..n] == word;
    AliasIs(Lower(word));
    DroppedReplaces(Lower(word), 0);
    assert Lower(word)[0..] == Lower(word);
  }

  /** Lower case of ASCII text is taken letter by letter. */
  lemma {:induction false} LowerEach(s: string, k: nat)
    requires k < |s| && forall i | 0 <= i < |s| :: s[i] < '\U{0080}'
    ensures |Lower(s)| == |s|
    ensures 'A' <= s[k] <= 'Z' ==> Lower(s)[k] as int == s[k] as int + 32
    ensures !('A' <= s[k] <= 'Z') ==> Lower(s)[k] == s[k]
    decreases |s|
  {
    if k > 0 { LowerEach(s[1..], k - 1); } else if |s| > 1 { LowerEach(s[1..], 0); }
  }

  /** The two other characters whose lower case has an ASCII letter in it, and what follows each of them. */
  lemma LowerOfTwo(kelvin: char, dotted: char, rest: string)
    requires kelvin == '\U{212A}' && dotted == '\U{0130}'
    ensures Lower([kelvin] + rest) == ['k'] + Lower(rest) && Lower([dotted] + rest) == ['i', '\U{0307}'] + Lower(rest)
  {
    assert ([kelvin] + rest)[1..] == rest && ([dotted] + rest)[1..] == rest;
  }

  // --- The message ---------------------------------------------------------------------------------

  /** `parts.filter(Boolean)` */
  function NonEmpty(parts: seq<string>): seq<string> {
    if parts == [] then [] else (if parts[0] == "" then [] else [parts[0]]) + NonEmpty(parts[1..])
  }

  function PrintedFiles(files: seq<Attachment>): seq<string> {
    seq(|files|, i requires 0 <= i < |files| => BuildTextBlock(files[i]))
  }

  lemma PrintedNotEmpty(a: Attachment)
    ensures BuildTextBlock(a) != ""
  {
    hide OpenerLine, FenceFor, LanguageForFilename;
  }

  lemma {:induction false} FilesAreJoined(files: seq<Attachment>)
    ensures NonEmpty(PrintedFiles(files)) == PrintedFiles(files)
    ensures files != [] ==> FilesText(files) == Join(PrintedFiles(files), "\n\n")
  {
    hide BuildTextBlock;
    if files != [] {
      PrintedNotEmpty(files[0]);
      var all, more := PrintedFiles(files), PrintedFiles(files[1..]);
      assert all[1..] == more && all[0] == BuildTextBlock(files[0]);
      FilesAreJoined(files[1..]);
      assert [all[0]] + more == all;
    }
  }

  lemma FilesNotEmpty(files: seq<Attachment>)
    requires files != []
    ensures FilesText(files) != ""
  {
    hide BuildTextBlock;
    PrintedNotEmpty(files[0]);
  }

  lemma FirstPart(first: string, more: seq<string>, separator: string)
    ensures NonEmpty([first] + more) == (if first == "" then [] else [first]) + NonEmpty(more)
    ensures more != [] ==> Join([first] + more, separator) == first + separator + Join(more, separator)
    ensures Join([first], separator) == first && Join([], separator) == ""
  {
    assert ([first] + more)[1..] == more;
  }

  /** The text of the prompt, as the source puts it together: what is not empty of the trimmed input and the printed
      files, joined by blank lines, or one of two sentences if that is nothing. */
  lemma MessageIsJoined(typed: string, files: seq<Attachment>, images: bool)
    ensures var joined := Join(NonEmpty([Trim(typed)] + PrintedFiles(files)), "\n\n");
      MessageText(typed, files, images)
         == if joined != "" then joined
            else if images then "Please inspect the attached image(s)." else "Please review the attached file(s)."
  {
    FilesAreJoined(files);
    var text, printed := Trim(typed), PrintedFiles(files);
    assert |printed| == |files|;
    FirstPart(text, printed, "\n\n");
    if files != [] { FilesNotEmpty(files); }
    hide Trim, FilesText, PrintedFiles, Join, NonEmpty;
    if files == [] {
      assert printed == [] && [text] + [] == [text] && [] + printed == [];
    } else {
      assert [] + printed == printed;
    }
  }

  /** A message without files is what was typed, and shows as that. */
  lemma TypedAlone(typed: string, images: bool)
    requires Trim(typed) != ""
    ensures MessageText(typed, [], images) == Trim(typed)
    ensures RenderMarkdown(MessageText(typed, [], images)) == RenderMarkdown(Trim(typed))
  {
  }

  lemma PrintedBreaks(first: string, opener: string, text: string, rest: string)
    ensures '\n' in Printed(first, opener, text, rest)
  {
    assert Printed(first, opener, text, rest)[|first|] == '\n';
  }

  lemma FilesHaveBreaks(files: seq<Attachment>)
    requires files != []
    ensures '\n' in FilesText(files)
  {
    var a := files[0];
    BlockIsPrinted(a);
    PrintedBreaks(FirstLine(a), OpenerLine(a), a.text, FenceFor(a.text));
    hide BuildTextBlock, Printed;
    if |files| > 1 { Front(BuildTextBlock(a), "\n\n", FilesText(files[1..])); }
  }

  lemma Front(a: string, b: string, c: string)
    requires '\n' in a
    ensures '\n' in a + b + c
  {
  }

  lemma NoBreak(sentence: string)
    requires sentence == "Please review the attached file(s)."
    ensures '\n' !in sentence && sentence != "Please inspect the attached image(s)."
  {
  }

  /** Of the messages that are sent, which are those with something typed or attached, the sentence about files is one
      only if it was typed. */
  lemma FileSentenceIsTyped(typed: string, files: seq<Attachment>, images: bool, sentence: string)
    requires Trim(typed) != "" || files != [] || images
    requires sentence == "Please review the attached file(s)."
    ensures MessageText(typed, files, images) == sentence <==> files == [] && Trim(typed) == sentence
  {
    NoBreak(sentence);
    if files != [] { FilesHaveBreaks(files); }
    hide Trim, FilesText;
  }

  predicate Occurs(part: string, s: string) { exists k | 0 <= k <= |s| :: part <= s[k..] }

  lemma {:induction false} ContainsIff(s: string, part: string)
    ensures Contains(s, part) <==> Occurs(part, s)
  {
    assert s[0..] == s;
    if s == "" {
    } else {
      ContainsIff(s[1..], part);
      assert forall k | 0 <= k < |s| :: s[1..][k..] == s[k + 1..];
      if Occurs(part, s) && !(part <= s) {
        var k :| 0 <= k <= |s| && part <= s[k..];
        assert s[1..][k - 1..] == s[k..];
      }
      if Occurs(part, s[1..]) {
        var k :| 0 <= k <= |s[1..]| && part <= s[1..][k..];
        assert part <= s[k + 1..];
      }
    }
  }

  /** How a file is printed: its name, and its text in a fence of three backticks, or of four tildes if three backticks
      occur in the text. */
  lemma FilePrints(a: Attachment, fence: string)
    requires fence == if Occurs("```", a.text) then "~~~~" else "```"
    ensures BuildTextBlock(a)
         == "Attached file: " + a.name + "\n\n" + fence + LanguageByExtension(Extension(a.name)) + "\n" + a.text + "\n" + fence
  {
    ContainsIff(a.text, TICKS);
    hide Occurs, Contains, LanguageByExtension;
  }
}
