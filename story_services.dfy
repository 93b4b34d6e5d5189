/** The story-playground service: composes a story prompt (filling a missing
    theme or genre from a fixed list), sends it as a Messages request, and splits
    the generated text into a title and a body. */
module StoryServices {
  import opened Values
  import opened Bedrock
  import opened PyStr
  import Messages

  const Themes: seq<string> := [
    "adventure", "mystery", "fantasy", "science fiction", "romance",
    "horror", "historical", "comedy", "drama", "fairy tale"]

  const Genres: seq<string> := [
    "action", "thriller", "dystopian", "utopian", "western",
    "cyberpunk", "steampunk", "magical realism", "urban fantasy", "space opera"]

  /** The model id the story request goes to. */
  const ModelId := "anthropic.claude-3-5-sonnet-20240620-v1:0"

  /** Defaults of `generate_story` (and of the story request model). */
  const DefaultCharacters := 1
  const DefaultLength := "medium"
  const DefaultTemperature := 0.7
  const DefaultMaxTokens := 1000

  const ShortClause := "a short story (about 500 words)"
  const LongClause := "a longer story (about 2000 words)"
  const MediumClause := "a medium-length story (about 1000 words)"

  const TitleInstruction :=
    "Include a creative title at the beginning of your response in the format 'Title: [Your Title]'."

  const TitlePrefix := "Title:"
  const UntitledTitle := "Untitled Story"

  // ------------------------------------------------------------ the prompt

  /** Python truthiness of an optional string: present and non-empty. */
  predicate Given(o: Option<string>) {
    o.Some? && o.value != ""
  }

  /** `value if value else random.choice(pool)`; the random pick is `draw`. */
  function Choose(value: Option<string>, pool: seq<string>, draw: nat): (r: string)
    requires |pool| > 0
    ensures Given(value) ==> r == value.value
    ensures !Given(value) ==> r in pool
  {
    if Given(value) then value.value else pool[draw % |pool|]
  }

  /** Every candidate in the pool is reachable by some draw: the choice is not
      constrained beyond membership. */
  lemma EveryCandidateReachable(value: Option<string>, pool: seq<string>, x: string)
    requires |pool| > 0 && !Given(value) && x in pool
    ensures exists draw: nat :: Choose(value, pool, draw) == x
  {
    var k :| 0 <= k < |pool| && pool[k] == x;
    assert Choose(value, pool, k) == x;
  }

  /** The length clause: "short" and "long" have their own, every other value
      (including values that mean nothing) gets the medium one. */
  function LengthClause(length: string): (r: string)
    ensures r == ShortClause <==> length == "short"
    ensures r == LongClause <==> length == "long"
    ensures r == MediumClause <==> length != "short" && length != "long"
  {
    if length == "short" then ShortClause
    else if length == "long" then LongClause
    else MediumClause
  }

  /** "featuring N main character", with an "s" exactly when N > 1. */
  function CharacterClause(characters: int): (r: string)
    ensures StartsWith(r, "featuring " + IntToString(characters) + " main character")
    ensures r[|r| - 1] == 's' <==> characters > 1
    ensures |r| == |"featuring " + IntToString(characters) + " main character"| + (if characters > 1 then 1 else 0)
  {
    var stem := "featuring " + IntToString(characters) + " main character";
    var r := stem + (if characters > 1 then "s" else "");
    assert r[..|stem|] == stem;
    r
  }

  /** The prompt's f-string, with the title instruction as a parameter so that
      the facts below hold for any text in its place. */
  function PromptWith(lengthDesc: string, genre: string, theme: string, charDesc: string,
                      instruction: string): string
  {
    "Write " + lengthDesc + " in the " + genre + " genre with a " + theme + " theme, "
      + charDesc + ". " + instruction
  }

  /** `generate_random_prompt(theme, genre, characters, length)`. The body
      writes the f-string as the source does; the contract relates it to
      `PromptWith`, the same shape over arbitrary parts, which the prompt
      lemmas are stated over. */
  function GenerateRandomPrompt(theme: Option<string>, genre: Option<string>, characters: int,
                                length: string, themeDraw: nat, genreDraw: nat): (r: string)
    ensures r == PromptWith(LengthClause(length), Choose(genre, Genres, genreDraw),
                            Choose(theme, Themes, themeDraw), CharacterClause(characters),
                            TitleInstruction)
  {
    var t := Choose(theme, Themes, themeDraw);
    var g := Choose(genre, Genres, genreDraw);
    "Write " + LengthClause(length) + " in the " + g + " genre with a " + t + " theme, "
      + CharacterClause(characters) + ". " + TitleInstruction
  }

  /** Any prompt of this shape opens with "Write " and the length clause and
      closes with the instruction. */
  lemma PromptFrame(l: string, g: string, t: string, c: string, ti: string)
    ensures StartsWith(PromptWith(l, g, t, c, ti), "Write " + l)
    ensures EndsWith(PromptWith(l, g, t, c, ti), ti)
  {
    var p := PromptWith(l, g, t, c, ti);
    var mid := " in the " + g + " genre with a " + t + " theme, " + c + ". ";
    assert p == ("Write " + l) + mid + ti;
    assert p[..|"Write " + l|] == "Write " + l;
    assert p[|p| - |ti|..] == ti;
  }

  /** Any prompt of this shape names its genre. */
  lemma PromptHasGenre(l: string, g: string, t: string, c: string, ti: string)
    ensures Contains(PromptWith(l, g, t, c, ti), g)
  {
    var x := "Write " + l + " in the ";
    var y := " genre with a " + t + " theme, " + c + ". " + ti;
    assert PromptWith(l, g, t, c, ti) == x + g + y;
    ContainsMiddle(x, g, y);
  }

  /** Any prompt of this shape names its theme. */
  lemma PromptHasTheme(l: string, g: string, t: string, c: string, ti: string)
    ensures Contains(PromptWith(l, g, t, c, ti), t)
  {
    var x := "Write " + l + " in the " + g + " genre with a ";
    var y := " theme, " + c + ". " + ti;
    assert PromptWith(l, g, t, c, ti) == x + t + y;
    ContainsMiddle(x, t, y);
  }

  /** Any prompt of this shape contains its character clause. */
  lemma PromptHasCharacters(l: string, g: string, t: string, c: string, ti: string)
    ensures Contains(PromptWith(l, g, t, c, ti), c)
  {
    var x := "Write " + l + " in the " + g + " genre with a " + t + " theme, ";
    var y := ". " + ti;
    assert PromptWith(l, g, t, c, ti) == x + c + y;
    ContainsMiddle(x, c, y);
  }

  /** The character clause says "N main character", and "N main characters"
      when N > 1. */
  lemma CharacterClauseSays(characters: int)
    ensures Contains(CharacterClause(characters), IntToString(characters) + " main character")
    ensures characters > 1 ==> Contains(CharacterClause(characters), IntToString(characters) + " main characters")
  {
    var n := IntToString(characters) + " main character";
    var plural := if characters > 1 then "s" else "";
    assert CharacterClause(characters) == "featuring " + n + plural;
    ContainsMiddle("featuring ", n, plural);
    if characters > 1 {
      assert " main character" + "s" == " main characters";
      assert n + "s" == IntToString(characters) + " main characters";
      assert CharacterClause(characters) == "featuring " + (n + "s") + "";
      ContainsMiddle("featuring ", n + "s", "");
    }
  }

  /** The prompt opens with the length clause, names the chosen genre and
      theme, says "N main character" (and "N main characters" when N > 1), and
      closes with the title instruction. */
  lemma PromptMentions(theme: Option<string>, genre: Option<string>, characters: int,
                       length: string, themeDraw: nat, genreDraw: nat)
    ensures var p := GenerateRandomPrompt(theme, genre, characters, length, themeDraw, genreDraw);
      StartsWith(p, "Write " + LengthClause(length)) && EndsWith(p, TitleInstruction)
      && Contains(p, Choose(genre, Genres, genreDraw)) && Contains(p, Choose(theme, Themes, themeDraw))
      && Contains(p, IntToString(characters) + " main character")
      && (characters > 1 ==> Contains(p, IntToString(characters) + " main characters"))
  {
    var p := GenerateRandomPrompt(theme, genre, characters, length, themeDraw, genreDraw);
    var l, g, t := LengthClause(length), Choose(genre, Genres, genreDraw), Choose(theme, Themes, themeDraw);
    var c := CharacterClause(characters);
    PromptFrame(l, g, t, c, TitleInstruction);
    PromptHasGenre(l, g, t, c, TitleInstruction);
    PromptHasTheme(l, g, t, c, TitleInstruction);
    PromptHasCharacters(l, g, t, c, TitleInstruction);
    CharacterClauseSays(characters);
    ContainsWithin(p, c, IntToString(characters) + " main character");
    if characters > 1 {
      ContainsWithin(p, c, IntToString(characters) + " main characters");
    }
  }

  /** The pinned example with no arguments: the prompt asks for a medium-length
      story with the singular "featuring 1 main character". */
  lemma DefaultPromptExample(themeDraw: nat, genreDraw: nat)
    ensures var p := GenerateRandomPrompt(None, None, DefaultCharacters, DefaultLength, themeDraw, genreDraw);
      StartsWith(p, "Write " + MediumClause) && Contains(p, "1 main character")
      && CharacterClause(DefaultCharacters) == "featuring 1 main character"
  {
    assert IntToString(1) == "1";
    assert "1" + " main character" == "1 main character";
    assert "featuring " + "1" + " main character" == "featuring 1 main character";
    PromptMentions(None, None, DefaultCharacters, DefaultLength, themeDraw, genreDraw);
  }

  /** The pinned example with theme "mystery", genre "thriller", three
      characters and "short": a short story naming both and "3 main
      characters". */
  lemma ChosenPromptExample(theme: string, genre: string, themeDraw: nat, genreDraw: nat)
    requires theme == "mystery" && genre == "thriller"
    ensures var p := GenerateRandomPrompt(Some(theme), Some(genre), 3, "short", themeDraw, genreDraw);
      StartsWith(p, "Write " + ShortClause) && Contains(p, theme) && Contains(p, genre)
      && Contains(p, "3 main characters")
  {
    assert IntToString(3) == "3";
    assert "3" + " main characters" == "3 main characters";
    PromptMentions(Some(theme), Some(genre), 3, "short", themeDraw, genreDraw);
  }

  // ------------------------------------------------------------ the request

  /** The one request `generate_story` sends: the Messages body of the prompt,
      without a system prompt, to the story model. */
  function StoryRequest(prompt: string, temperature: real, maxTokens: int): (c: Call)
    ensures c.modelId == ModelId
    ensures Messages.Decode(c.body) == Some(Messages.MessagesRequest(maxTokens, temperature, None, prompt))
  {
    var req := Messages.MessagesRequest(maxTokens, temperature, None, prompt);
    Messages.DecodeEncode(req);
    Call(ModelId, Messages.Encode(req))
  }

  // ---------------------------------------------------- title and story text

  /** Splits generated text into (title, story). If the first line starts with
      "Title:", the title is that line with "Title:" removed wherever it
      occurs, then stripped, and the story is the text after the first newline,
      stripped (empty when there is no newline). Otherwise the title is the
      placeholder and the story is the text, untouched. */
  function ExtractTitleAndStory(text: string): (r: (string, string))
    ensures StartsWith(text[..LineEnd(text)], TitlePrefix) ==>
      r.0 == Strip(RemoveAll(text[|TitlePrefix|..LineEnd(text)], TitlePrefix))
      && r.1 == Strip(if LineEnd(text) < |text| then text[LineEnd(text) + 1..] else "")
    ensures !StartsWith(text[..LineEnd(text)], TitlePrefix) ==> r == (UntitledTitle, text)
    ensures StartsWith(text[..LineEnd(text)], TitlePrefix) ==> Trimmed(r.0) && Trimmed(r.1)
  {
    FirstLineAndRest(text);
    var lines := Split(text);
    var titleLine := lines[0];
    if StartsWith(titleLine, TitlePrefix) then
      assert titleLine[|TitlePrefix|..] == text[|TitlePrefix|..LineEnd(text)];
      (Strip(RemoveAll(titleLine, TitlePrefix)), Strip(Join(lines[1..])))
    else
      (UntitledTitle, text)
  }

  /** A text made of "Title:", a line, a newline and the rest splits into the
      stripped line without "Title:" and the stripped rest: the split and the
      rejoin of lines give back exactly what followed the first newline. */
  lemma TitledSplit(line: string, rest: string)
    requires '\n' !in line
    ensures ExtractTitleAndStory(TitlePrefix + line + "\n" + rest)
      == (Strip(RemoveAll(line, TitlePrefix)), Strip(rest))
  {
    PrefixIsOneLine();
    FirstLineOf(TitlePrefix, line, rest);
  }

  lemma PrefixIsOneLine()
    ensures '\n' !in TitlePrefix
  {
  }

  /** A text whose first line does not start with "Title:" keeps the
      placeholder title and is itself the story, whitespace and all. */
  lemma UntitledKeepsText(text: string)
    requires !StartsWith(text, TitlePrefix)
    ensures ExtractTitleAndStory(text) == (UntitledTitle, text)
  {
    PrefixIsOneLine();
    FirstLineStartsWith(text, TitlePrefix);
  }

  /** `story_text.split(...)` on a text that is not a string fails with
      Python's AttributeError. */
  function SplitStoryText(storyText: Value): (r: Outcome<(string, string)>)
    ensures r.Ok? <==> storyText.Str?
    ensures storyText.Str? ==> r.value == ExtractTitleAndStory(storyText.s)
    ensures !storyText.Str? ==>
      r == Raised(Exception("AttributeError", "'" + TypeName(storyText) + "' object has no attribute 'split'"))
  {
    match storyText
    case Str(s) => Ok(ExtractTitleAndStory(s))
    case _ => Raised(Exception("AttributeError", "'" + TypeName(storyText) + "' object has no attribute 'split'"))
  }

  /** `response_body.get("content")[0]["text"]`: a missing `content` makes the
      index fail on None. */
  function StoryText(response: Value): (r: Outcome<Value>)
    ensures response.Dict? && "content" !in response.fields ==> r == Raised(NotSubscriptable(Null))
    ensures r.Ok? <==> (response.Dict? && "content" in response.fields
      && response.fields["content"].List? && |response.fields["content"].items| > 0
      && response.fields["content"].items[0].Dict?
      && "text" in response.fields["content"].items[0].fields)
    ensures r.Ok? ==> r.value == response.fields["content"].items[0].fields["text"]
  {
    var content: Outcome<Value> := Get(response, "content");
    match content
    case Raised(f) => Raised(f)
    case Ok(c) =>
      var first: Outcome<Value> := First(c);
      match first
      case Raised(f) => Raised(f)
      case Ok(b) => Item(b, "text")
  }

  /** `generate_story(...)`: compose the prompt, send it, split the answer.
      Failures of the call or of the extraction propagate as raised. */
  function GenerateStory(theme: Option<string>, genre: Option<string>, characters: int, length: string,
                         temperature: real, maxTokens: int, themeDraw: nat, genreDraw: nat,
                         runtime: Runtime): (r: Outcome<(string, string)>)
    ensures var c := StoryRequest(GenerateRandomPrompt(theme, genre, characters, length, themeDraw, genreDraw),
                                  temperature, maxTokens);
      (runtime(c).Raised? ==> r == Raised(runtime(c).failure))
      && (runtime(c).Ok? ==> r == Then(StoryText(runtime(c).value), SplitStoryText))
  {
    var prompt := GenerateRandomPrompt(theme, genre, characters, length, themeDraw, genreDraw);
    Then(runtime(StoryRequest(prompt, temperature, maxTokens)),
         (body: Value) => Then(StoryText(body), SplitStoryText))
  }

  /** The pinned example: "Title: Test Story\n\nThis is a test story." splits
      into "Test Story" and "This is a test story.". */
  lemma TitleExample(text: string)
    requires text == "Title: Test Story\n\nThis is a test story."
    ensures ExtractTitleAndStory(text) == ("Test Story", "This is a test story.")
  {
    var line, rest := " Test Story", "\nThis is a test story.";
    var head := TitlePrefix + line;
    assert head == "Title: Test Story";
    assert head + "\n" == "Title: Test Story\n";
    assert head + "\n" + rest == text;
    TitledSplit(line, rest);
    ExampleTitleRemoved(line);
    ExamplePartsStripped(line, rest);
  }

  /** The pinned title line holds no second "Title:", so nothing is removed. */
  lemma ExampleTitleRemoved(line: string)
    requires line == " Test Story"
    ensures RemoveAll(line, TitlePrefix) == line
  {
    forall i | 0 <= i <= |line| - 6 ensures !OccursAt(line, "Title:", i) {
      if i == 1 { assert line[2] != 'i'; } else { assert line[i] != 'T'; }
    }
    RemoveAllAbsent(line, "Title:");
  }

  /** The two pinned parts each lose one leading whitespace character. */
  lemma ExamplePartsStripped(line: string, rest: string)
    requires line == " Test Story" && rest == "\nThis is a test story."
    ensures Strip(line) == "Test Story" && Strip(rest) == "This is a test story."
  {
    var t, u := "Test Story", "This is a test story.";
    assert line == [' '] + t;
    assert rest == ['\n'] + u;
    StripSpaceThen(' ', t);
    StripSpaceThen('\n', u);
  }

  /** Text without the prefix keeps the placeholder title and is left untouched,
      surrounding whitespace included. */
  lemma UntitledExample(text: string)
    requires text == "  Once upon a time.\n"
    ensures ExtractTitleAndStory(text) == (UntitledTitle, text)
  {
    assert text[0] != TitlePrefix[0];
    UntitledKeepsText(text);
  }

  /** With the defaults and the pinned answer, the service returns the pinned
      title and story, whichever theme and genre were drawn. */
  lemma GenerateStoryExample(themeDraw: nat, genreDraw: nat, runtime: Runtime, text: string)
    requires text == "Title: Test Story\n\nThis is a test story."
    requires runtime(StoryRequest(
      GenerateRandomPrompt(None, None, DefaultCharacters, DefaultLength, themeDraw, genreDraw),
      DefaultTemperature, DefaultMaxTokens))
      == Ok(Dict(map["content" := List([Dict(map["text" := Str(text)])])]))
    ensures GenerateStory(None, None, DefaultCharacters, DefaultLength, DefaultTemperature, DefaultMaxTokens,
                          themeDraw, genreDraw, runtime)
      == Ok(("Test Story", "This is a test story."))
  {
    TitleExample(text);
  }
}
