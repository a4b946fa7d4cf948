/** The AI tool handlers (server/controllers/aiController.js): input
    validation, prompt construction, the blog-title parser, the placeholder
    image list and the resume-review fallback.

    The text generator is a parameter (`None` when the call throws), as are
    the two encoders the handlers use (`encodeURIComponent` and base64).
    Each handler is a transition of the `creations` table. `storeDown` says
    the insert throws. */
module AiController {
  import opened Common
  import opened Text

  /** `generateContent(prompt, temperature)`. */
  type Generator = (string, real) -> Option<string>

  datatype Title = Title(id: nat, title: string)

  datatype Image = Image(id: nat, url: string, prompt: string, style: Option<string>, size: Option<string>)

  datatype Scores = Scores(content: nat, formatting: nat, ats: nat, experience: nat, skills: nat)

  datatype Summary = Summary(
    overallScore: nat, scores: Scores, strengths: seq<string>, improvements: seq<string>,
    found: seq<string>, missing: seq<string>, atsScore: nat)

  /** The review returned when the generator's text is not JSON (lines
      292-299). */
  const FALLBACK_REVIEW := Summary(
    75, Scores(80, 75, 70, 75, 80),
    ["Well-structured content", "Clear experience section"],
    ["Add more keywords", "Improve ATS compatibility"],
    ["Management", "Leadership"], ["Agile", "Scrum"], 70)

  /** The value `JSON.parse` produced from the generator's text, or the
      fixed fallback. */
  datatype Review = Parsed(source: string) | Fallback(summary: Summary)

  /** What a `creations` row keeps as `output` (the source stores the JSON
      text of the structured values). */
  datatype Output = Text(text: string) | ImageList(images: seq<Image>) | ReviewOutput(review: Review)

  datatype Creation = Creation(userId: nat, kind: string, prompt: string, output: Output, tool: string)

  datatype AiData =
    | NoOutput
    | Article(article: string, wordCount: nat)
    | Titles(titles: seq<Title>)
    | Images(images: seq<Image>)
    | Processed(processedImage: string)
    | Reviewed(review: Review)

  datatype AiResponse = AiResponse(status: nat, success: bool, message: Option<string>, data: AiData)

  datatype AiStep = AiStep(creations: seq<Creation>, response: AiResponse)

  function Refuse(status: nat, message: string): (r: AiResponse)
    ensures !r.success && r.data == NoOutput
  {
    AiResponse(status, false, Some(message), NoOutput)
  }

  function Ok(data: AiData): AiResponse {
    AiResponse(200, true, None, data)
  }

  /** An uploaded file: its MIME type and its content. */
  datatype Upload = Upload(mimetype: string, content: string)

  // ----- writeArticle (lines 9-47) -----

  function ArticlePrompt(topic: string, tone: Option<string>, length: Option<string>,
                         keywords: Option<string>): string {
    "Write a " + JsString(tone) + " article about \"" + topic + "\" that is approximately "
    + JsString(length) + " words long. "
    + (if Truthy(keywords) then "Include these keywords: " + keywords.value + "." else "")
    + ARTICLE_INSTRUCTIONS
  }

  const ARTICLE_INSTRUCTIONS := " Use markdown formatting with headers, bullet points where appropriate. Make it engaging and informative."

  /** `article.split(' ').length`. */
  function WordCount(article: string): (n: nat)
    ensures n == multiset(article)[' '] + 1
  {
    SplitCount(article, ' ');
    |Split(article, ' ')|
  }

  function WriteArticle(creations: seq<Creation>, userId: nat, topic: Option<string>, tone: Option<string>,
                        length: Option<string>, keywords: Option<string>, generate: Generator,
                        storeDown: bool): (r: AiStep)
    ensures !Truthy(topic) ==> r == AiStep(creations, Refuse(400, "Please provide a topic"))
    ensures r.response.status == 200 <==>
              Truthy(topic) && generate(ArticlePrompt(topic.value, tone, length, keywords), 0.7).Some? && !storeDown
    ensures r.response.status == 200 ==>
              var article := generate(ArticlePrompt(topic.value, tone, length, keywords), 0.7).value;
              && r.creations == creations + [Creation(userId, "article", topic.value, Text(article), "Write Article")]
              && r.response.data == Article(article, multiset(article)[' '] + 1)
    ensures Truthy(topic) && r.response.status != 200 ==>
              r == AiStep(creations, Refuse(500, "Failed to generate article"))
  {
    if !Truthy(topic) then AiStep(creations, Refuse(400, "Please provide a topic"))
    else match generate(ArticlePrompt(topic.value, tone, length, keywords), 0.7)
      case None => AiStep(creations, Refuse(500, "Failed to generate article"))
      case Some(article) =>
        if storeDown then AiStep(creations, Refuse(500, "Failed to generate article"))
        else AiStep(creations + [Creation(userId, "article", topic.value, Text(article), "Write Article")],
                    Ok(Article(article, WordCount(article))))
  }

  // ----- generateBlogTitles (lines 52-98) -----

  /** `${count || 5}`: a missing or zero count asks for five titles. */
  function TitleCount(count: Option<int>): string {
    if count.None? || count.value == 0 then "5" else IntToString(count.value)
  }

  function BlogPrompt(topic: string, category: Option<string>, count: Option<int>): string {
    "Generate " + TitleCount(count) + BLOG_ASK + topic + "\" in the "
    + (if Truthy(category) then category.value else "general")
    + BLOG_INSTRUCTIONS
  }

  const BLOG_ASK := " catchy, SEO-friendly blog titles about \""
  const BLOG_INSTRUCTIONS := " category. Make them engaging, click-worthy, and include power words. Format as a numbered list."

  /** `line.replace(/^\d+\.\s*\/, '')`: one leading `digits.` and the white
      space after it, when the line starts that way. */
  function StripNumber(line: string): (r: string)
    ensures var k := LeadingDigits(line);
            if 0 < k < |line| && line[k] == '.' then r == TrimStart(line[k + 1..]) else r == line
  {
    var k := LeadingDigits(line);
    if 0 < k < |line| && line[k] == '.' then TrimStart(line[k + 1..]) else line
  }

  predicate NonBlank(line: string) {
    !IsBlank(line)
  }

  /** The lines of `text` whose trim is non-empty, in order. */
  function TitleLines(text: string): (lines: seq<string>)
    ensures IsSubsequence(lines, Split(text, '\n'))
    ensures forall l :: multiset(lines)[l] == if Trim(l) != "" then multiset(Split(text, '\n'))[l] else 0
  {
    Filter(Split(text, '\n'), NonBlank)
  }

  /** Lines 74-77: each kept line, numbered from one, loses its `n.`
      prefix and its surrounding white space. */
  function TitlesOf(lines: seq<string>): (titles: seq<Title>)
    ensures |titles| == |lines|
    ensures forall i :: 0 <= i < |titles| ==> titles[i] == Title(i + 1, Trim(StripNumber(lines[i])))
  {
    seq(|lines|, i requires 0 <= i < |lines| => Title(i + 1, Trim(StripNumber(lines[i]))))
  }

  /** Lines 71-77. */
  function ParseTitles(text: string): (titles: seq<Title>)
    ensures |titles| == |TitleLines(text)|
    ensures forall i :: 0 <= i < |titles| ==>
              titles[i] == Title(i + 1, Trim(StripNumber(TitleLines(text)[i])))
  {
    TitlesOf(TitleLines(text))
  }

  /** A clean title: non-empty, one line, no white space at either end. */
  predicate CleanTitle(t: string) {
    |t| > 0 && '\n' !in t && !IsSpace(t[0]) && !IsSpace(t[|t| - 1])
  }

  /** The entry `n. t` of a numbered list. */
  function Entry(n: nat, t: string): string {
    NatToString(n) + ". " + t
  }

  /** The numbered list `1. t1\n2. t2\n...` a well-behaved generator writes. */
  function NumberedList(titles: seq<string>): seq<string> {
    seq(|titles|, i requires 0 <= i < |titles| => Entry(i + 1, titles[i]))
  }

  /** A digit is not white space. */
  lemma DigitIsNotSpace(c: char)
    requires IsDigit(c)
    ensures !IsSpace(c) && c != '\n'
  {
  }

  /** The prefix `n. ` comes off a numbered entry, and nothing more. */
  lemma StripNumberedLine(d: string, t: string)
    requires |d| > 0 && forall i :: 0 <= i < |d| ==> IsDigit(d[i])
    requires |t| > 0 && !IsSpace(t[0])
    ensures StripNumber(d + ". " + t) == t
  {
    var line := d + ". " + t;
    assert line == d + (". " + t);
    LeadingDigitsOfPrefix(d, ". " + t);
    assert line[|d|] == '.';
    assert line[|d| + 1..] == " " + t;
    assert (" " + t)[1..] == t;
  }

  /** A numbered entry is one non-blank line. */
  lemma NumberedLineShape(d: string, t: string)
    requires |d| > 0 && forall i :: 0 <= i < |d| ==> IsDigit(d[i])
    requires '\n' !in t
    ensures NonBlank(d + ". " + t) && '\n' !in d + ". " + t
  {
    var line := d + ". " + t;
    DigitIsNotSpace(d[0]);
    assert line[0] == d[0];
    forall i | 0 <= i < |d| ensures d[i] != '\n' {
      DigitIsNotSpace(d[i]);
    }
    assert '\n' !in d;
    assert '\n' !in ". ";
  }

  /** A numbered entry parses back to its title. */
  lemma NumberedLineParses(n: nat, t: string)
    requires CleanTitle(t)
    ensures NonBlank(Entry(n, t)) && '\n' !in Entry(n, t) && Trim(StripNumber(Entry(n, t))) == t
  {
    NumberedLineShape(NatToString(n), t);
    StripNumberedLine(NatToString(n), t);
    TrimOfTrimmed(t);
  }

  /** Every line of a numbered list of clean titles survives the blank-line
      filter. */
  lemma NumberedListLines(titles: seq<string>)
    requires forall i :: 0 <= i < |titles| ==> CleanTitle(titles[i])
    ensures TitleLines(Join(NumberedList(titles), '\n')) == NumberedList(titles)
  {
    var lines := NumberedList(titles);
    forall i | 0 <= i < |lines| ensures NonBlank(lines[i]) && '\n' !in lines[i] {
      assert lines[i] == Entry(i + 1, titles[i]);
      NumberedLineParses(i + 1, titles[i]);
    }
    KeptLines(lines);
  }

  /** Joining non-blank single lines and parsing them back keeps them all. */
  lemma KeptLines(lines: seq<string>)
    requires forall i :: 0 <= i < |lines| ==> NonBlank(lines[i]) && '\n' !in lines[i]
    ensures TitleLines(Join(lines, '\n')) == lines
  {
    if |lines| == 0 {
      assert Split("", '\n') == [""];
      assert !NonBlank("");
    } else {
      SplitJoin(lines, '\n');
      FilterKeepsAll(lines, NonBlank);
    }
  }

  /** The titles `1. t1`, `2. t2`, ... as the parser reports them. */
  function Numbered(titles: seq<string>): seq<Title> {
    seq(|titles|, i requires 0 <= i < |titles| => Title(i + 1, titles[i]))
  }

  /** Round trip: the parser recovers the titles of a numbered list, in
      order and numbered from 1. */
  lemma ParseNumberedList(titles: seq<string>)
    requires forall i :: 0 <= i < |titles| ==> CleanTitle(titles[i])
    ensures ParseTitles(Join(NumberedList(titles), '\n')) == Numbered(titles)
  {
    NumberedListLines(titles);
    ParsedEntries(titles);
  }

  /** The entries of a numbered list parse to its titles. */
  lemma ParsedEntries(titles: seq<string>)
    requires forall i :: 0 <= i < |titles| ==> CleanTitle(titles[i])
    ensures TitlesOf(NumberedList(titles)) == Numbered(titles)
  {
    var parsed := TitlesOf(NumberedList(titles));
    var expected := Numbered(titles);
    forall i | 0 <= i < |parsed| ensures parsed[i] == expected[i] {
      EntryParses(titles, i);
    }
  }

  lemma EntryParses(titles: seq<string>, i: nat)
    requires i < |titles| && CleanTitle(titles[i])
    ensures Trim(StripNumber(NumberedList(titles)[i])) == titles[i]
  {
    assert NumberedList(titles)[i] == Entry(i + 1, titles[i]);
    NumberedLineParses(i + 1, titles[i]);
  }

  function GenerateBlogTitles(creations: seq<Creation>, userId: nat, topic: Option<string>,
                              category: Option<string>, count: Option<int>, generate: Generator,
                              storeDown: bool): (r: AiStep)
    ensures !Truthy(topic) ==> r == AiStep(creations, Refuse(400, "Please provide a topic"))
    ensures r.response.status == 200 <==>
              Truthy(topic) && generate(BlogPrompt(topic.value, category, count), 0.9).Some? && !storeDown
    ensures r.response.status == 200 ==>
              var text := generate(BlogPrompt(topic.value, category, count), 0.9).value;
              && r.creations == creations + [Creation(userId, "title", topic.value, Text(text), "Blog Title")]
              && r.response.data == Titles(ParseTitles(text))
    ensures Truthy(topic) && r.response.status != 200 ==>
              r == AiStep(creations, Refuse(500, "Failed to generate blog titles"))
  {
    if !Truthy(topic) then AiStep(creations, Refuse(400, "Please provide a topic"))
    else match generate(BlogPrompt(topic.value, category, count), 0.9)
      case None => AiStep(creations, Refuse(500, "Failed to generate blog titles"))
      case Some(text) =>
        if storeDown then AiStep(creations, Refuse(500, "Failed to generate blog titles"))
        else AiStep(creations + [Creation(userId, "title", topic.value, Text(text), "Blog Title")],
                    Ok(Titles(ParseTitles(text))))
  }

  // ----- generateImages (lines 103-154) -----

  const COLORS: seq<string> := ["6366f1", "8b5cf6", "ec4899", "3b82f6", "10b981"]

  /** The largest array length; `Array.from` throws beyond it. */
  const MAX_ARRAY_LENGTH: nat := 0xFFFF_FFFF

  /** The aspect map of lines 116-120, with `800x800` for any other size. */
  function Resolution(size: Option<string>): (res: string)
    ensures size == Some("9:16") ==> res == "600x1067"
    ensures size == Some("16:9") ==> res == "1067x600"
    ensures size != Some("9:16") && size != Some("16:9") ==> res == "800x800"
  {
    match size
    case Some("1:1") => "800x800"
    case Some("9:16") => "600x1067"
    case Some("16:9") => "1067x600"
    case _ => "800x800"
  }

  /** The `length` of `Array.from({length: count || 1})`: a missing or zero
      count gives one image, a negative one none. */
  function ImageCount(count: Option<int>): (n: nat)
    ensures count.None? || count.value == 0 ==> n == 1
    ensures count.Some? && count.value > 0 ==> n == count.value
    ensures count.Some? && count.value < 0 ==> n == 0
  {
    if count.None? || count.value == 0 then 1 else if count.value < 0 then 0 else count.value
  }

  function ImageUrl(resolution: string, color: string, caption: string): string {
    PLACEHOLDER_HOST + resolution + "/" + color + PLACEHOLDER_TEXT + caption
  }

  const PLACEHOLDER_HOST := "https://via.placeholder.com/"
  const PLACEHOLDER_TEXT := "/ffffff?text="

  /** Lines 125-133. */
  function BuildImages(prompt: string, style: Option<string>, size: Option<string>, count: Option<int>,
                       encode: string -> string): (images: seq<Image>)
    ensures |images| == ImageCount(count)
    ensures forall i :: 0 <= i < |images| ==>
              && images[i].id == i + 1 && images[i].prompt == prompt
              && images[i].style == style && images[i].size == size
              && images[i].url == ImageUrl(Resolution(size), COLORS[i % 5], encode(JsString(style) + " " + prompt))
  {
    seq(ImageCount(count), i requires 0 <= i < ImageCount(count) =>
      Image(i + 1, ImageUrl(Resolution(size), COLORS[i % 5], encode(JsString(style) + " " + prompt)),
            prompt, style, size))
  }

  /** Two placeholder URLs differ exactly when their colours do. */
  lemma ImageUrlSeparatesColors(resolution: string, c1: string, c2: string, caption: string)
    requires |c1| == |c2|
    ensures ImageUrl(resolution, c1, caption) == ImageUrl(resolution, c2, caption) <==> c1 == c2
  {
    var prefix := "https://via.placeholder.com/" + resolution + "/";
    var suffix := "/ffffff?text=" + caption;
    assert ImageUrl(resolution, c1, caption) == prefix + c1 + suffix;
    assert ImageUrl(resolution, c2, caption) == prefix + c2 + suffix;
    if prefix + c1 + suffix == prefix + c2 + suffix {
      assert (prefix + c1 + suffix)[|prefix|..|prefix| + |c1|] == c1;
      assert (prefix + c2 + suffix)[|prefix|..|prefix| + |c2|] == c2;
    }
  }

  /** The five colours are distinct and of one length. */
  lemma ColorsDistinct(a: nat, b: nat)
    requires a < 5 && b < 5
    ensures |COLORS[a]| == |COLORS[b]|
    ensures COLORS[a] == COLORS[b] <==> a == b
  {
    if a != b {
      assert COLORS[a][0] != COLORS[b][0];
    }
  }

  /** The colours cycle with period five: two images share a URL exactly
      when their positions are a multiple of five apart. */
  lemma ImagesCycleColors(prompt: string, style: Option<string>, size: Option<string>, count: Option<int>,
                          encode: string -> string, i: nat, j: nat)
    requires i < j < ImageCount(count)
    ensures var images := BuildImages(prompt, style, size, count, encode);
            images[i].url == images[j].url <==> (j - i) % 5 == 0
  {
    var caption := encode(JsString(style) + " " + prompt);
    ColorsDistinct(i % 5, j % 5);
    ImageUrlSeparatesColors(Resolution(size), COLORS[i % 5], COLORS[j % 5], caption);
    assert (j - i) % 5 == 0 <==> i % 5 == j % 5 by {
      assert j - i == (j / 5 - i / 5) * 5 + (j % 5 - i % 5);
    }
  }

  function GenerateImages(creations: seq<Creation>, userId: nat, prompt: Option<string>, style: Option<string>,
                          size: Option<string>, count: Option<int>, encode: string -> string,
                          storeDown: bool): (r: AiStep)
    ensures !Truthy(prompt) ==> r == AiStep(creations, Refuse(400, "Please provide an image prompt"))
    ensures r.response.status == 200 <==>
              Truthy(prompt) && ImageCount(count) <= MAX_ARRAY_LENGTH && !storeDown
    ensures r.response.status == 200 ==>
              var images := BuildImages(prompt.value, style, size, count, encode);
              && r.creations == creations + [Creation(userId, "image", prompt.value, ImageList(images), "Generate Images")]
              && r.response.data == Images(images)
    ensures Truthy(prompt) && r.response.status != 200 ==>
              r == AiStep(creations, Refuse(500, "Failed to generate images"))
  {
    if !Truthy(prompt) then AiStep(creations, Refuse(400, "Please provide an image prompt"))
    else if ImageCount(count) > MAX_ARRAY_LENGTH || storeDown then
      AiStep(creations, Refuse(500, "Failed to generate images"))
    else
      var images := BuildImages(prompt.value, style, size, count, encode);
      AiStep(creations + [Creation(userId, "image", prompt.value, ImageList(images), "Generate Images")],
             Ok(Images(images)))
  }

  // ----- removeBackground and removeObject (lines 159-241) -----

  function DataUrl(file: Upload, base64: string -> string): string {
    "data:" + file.mimetype + ";base64," + base64(file.content)
  }

  /** The shared shape of the two image-editing mocks: the upload comes
      back unchanged as a data URL. */
  function EchoUpload(creations: seq<Creation>, userId: nat, file: Option<Upload>, base64: string -> string,
                      storeDown: bool, kind: string, heading: string, tool: string, failure: string): (r: AiStep)
    ensures file.None? ==> r == AiStep(creations, Refuse(400, "Please upload an image"))
    ensures file.Some? && storeDown ==> r == AiStep(creations, Refuse(500, failure))
    ensures file.Some? && !storeDown ==>
              var url := DataUrl(file.value, base64);
              r == AiStep(creations + [Creation(userId, kind, heading, Text(url), tool)], Ok(Processed(url)))
  {
    if file.None? then AiStep(creations, Refuse(400, "Please upload an image"))
    else if storeDown then AiStep(creations, Refuse(500, failure))
    else
      var url := DataUrl(file.value, base64);
      AiStep(creations + [Creation(userId, kind, heading, Text(url), tool)], Ok(Processed(url)))
  }

  function RemoveBackground(creations: seq<Creation>, userId: nat, file: Option<Upload>,
                            base64: string -> string, storeDown: bool): (r: AiStep)
    ensures file.None? ==> r == AiStep(creations, Refuse(400, "Please upload an image"))
    ensures r.response.status == 200 <==> file.Some? && !storeDown
    ensures r.response.status == 200 ==>
              |r.creations| == |creations| + 1 && r.creations[..|creations|] == creations
              && r.creations[|creations|].kind == "background-remove"
              && r.response.data == Processed(DataUrl(file.value, base64))
  {
    EchoUpload(creations, userId, file, base64, storeDown,
               "background-remove", "Remove background", "Remove Background", "Failed to remove background")
  }

  function RemoveObject(creations: seq<Creation>, userId: nat, file: Option<Upload>,
                        base64: string -> string, storeDown: bool): (r: AiStep)
    ensures file.None? ==> r == AiStep(creations, Refuse(400, "Please upload an image"))
    ensures r.response.status == 200 <==> file.Some? && !storeDown
    ensures r.response.status == 200 ==>
              |r.creations| == |creations| + 1 && r.creations[..|creations|] == creations
              && r.creations[|creations|].kind == "object-remove"
              && r.response.data == Processed(DataUrl(file.value, base64))
  {
    EchoUpload(creations, userId, file, base64, storeDown,
               "object-remove", "Remove object", "Remove Object", "Failed to remove object")
  }

  // ----- reviewResume (lines 246-325) -----

  const RESUME_EXCERPT_LENGTH: nat := 5000

  /** `fileContent.substring(0, 5000)`. */
  function Excerpt(content: string): (e: string)
    ensures |e| == if |content| < RESUME_EXCERPT_LENGTH then |content| else RESUME_EXCERPT_LENGTH
    ensures e == content[..|e|]
  {
    if |content| < RESUME_EXCERPT_LENGTH then content else content[..RESUME_EXCERPT_LENGTH]
  }

  function ResumePrompt(targetRole: Option<string>, content: string): string {
    "Analyze this resume" + (if Truthy(targetRole) then " for a " + targetRole.value + " position" else "")
    + RESUME_QUESTIONS + Excerpt(content) + RESUME_FORMAT
  }

  const RESUME_QUESTIONS := " and provide:\n1. Overall score (0-100)\n2. Scores for: content, formatting, ATS compatibility, experience, skills (each 0-100)\n3. Top 5 strengths\n4. Top 5 areas for improvement\n5. Keywords found and keywords missing\n6. ATS compatibility score\n\nResume content:\n"
  const RESUME_FORMAT := "\n\nProvide response in this JSON format:\n{\n  \"overallScore\": number,\n  \"scores\": {\"content\": number, \"formatting\": number, \"ats\": number, \"experience\": number, \"skills\": number},\n  \"strengths\": [\"string\"],\n  \"improvements\": [\"string\"],\n  \"keywords\": {\"found\": [\"string\"], \"missing\": [\"string\"]},\n  \"atsScore\": number\n}"

  /** Only the first 5000 characters of a resume reach the generator:
      resumes that agree on them get the same prompt. */
  lemma ResumePromptSeesExcerpt(targetRole: Option<string>, a: string, b: string)
    requires |a| >= RESUME_EXCERPT_LENGTH && |b| >= RESUME_EXCERPT_LENGTH
    requires a[..RESUME_EXCERPT_LENGTH] == b[..RESUME_EXCERPT_LENGTH]
    ensures ResumePrompt(targetRole, a) == ResumePrompt(targetRole, b)
  {
    assert Excerpt(a) == Excerpt(b);
  }

  /** Lines 287-300: the generator's text when it is JSON, the fallback
      otherwise. `isJson` says whether `JSON.parse` accepts a text. */
  function ParseReview(text: string, isJson: string -> bool): (r: Review)
    ensures r.Parsed? <==> isJson(text)
    ensures r.Parsed? ==> r.source == text
    ensures r.Fallback? ==> r.summary == FALLBACK_REVIEW
  {
    if isJson(text) then Parsed(text) else Fallback(FALLBACK_REVIEW)
  }

  function ReviewResume(creations: seq<Creation>, userId: nat, targetRole: Option<string>, file: Option<Upload>,
                        generate: Generator, isJson: string -> bool, storeDown: bool): (r: AiStep)
    ensures file.None? ==> r == AiStep(creations, Refuse(400, "Please upload a resume"))
    ensures r.response.status == 200 <==>
              file.Some? && generate(ResumePrompt(targetRole, file.value.content), 0.3).Some? && !storeDown
    ensures r.response.status == 200 ==>
              var review := ParseReview(generate(ResumePrompt(targetRole, file.value.content), 0.3).value, isJson);
              var heading := if Truthy(targetRole) then targetRole.value else "General review";
              && r.creations == creations + [Creation(userId, "resume", heading, ReviewOutput(review), "Review Resume")]
              && r.response.data == Reviewed(review)
    ensures file.Some? && r.response.status != 200 ==>
              r == AiStep(creations, Refuse(500, "Failed to review resume"))
  {
    if file.None? then AiStep(creations, Refuse(400, "Please upload a resume"))
    else match generate(ResumePrompt(targetRole, file.value.content), 0.3)
      case None => AiStep(creations, Refuse(500, "Failed to review resume"))
      case Some(text) =>
        if storeDown then AiStep(creations, Refuse(500, "Failed to review resume"))
        else
          var review := ParseReview(text, isJson);
          var heading := if Truthy(targetRole) then targetRole.value else "General review";
          AiStep(creations + [Creation(userId, "resume", heading, ReviewOutput(review), "Review Resume")],
                 Ok(Reviewed(review)))
  }
}
