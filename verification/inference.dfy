/** The backend's inference step (backend/inference.py): the user prompt is
    filled in, the generative model is asked, and its reply text is turned
    into the string handed to the JSON parser by three positional steps —
    drop the last character, strip backticks from both ends, remove one
    leading "json" — and the parsed value is returned as it is.

    The model call and `json.loads` are not part of this model: they enter
    as function parameters (`generate`, `parse`) that may fail. */
module Inference {
  import opened Results
  import opened Strings

  /** The characters passed to `strip`: three backticks, read by Python as
      the one-character set {'`'}. */
  const Fence: string := "```"

  /** The language tag removed after stripping. */
  const Tag: string := "json"

  /** Python `text[:-1]`: everything but the last character; "" stays "". */
  function DropLast(text: string): (r: string)
    ensures |text| == 0 ==> r == []
    ensures |text| > 0 ==> r + [text[|text| - 1]] == text
  {
    if |text| == 0 then [] else text[..|text| - 1]
  }

  /** The string the backend hands to the JSON parser for reply `text`. */
  function NormalizeReply(text: string): (r: string)
    ensures |text| > 0 ==> |r| < |text|
    ensures !EndsWith(r, "`")
    ensures IsInfix(r, DropLast(text))
  {
    var d := DropLast(text);
    var r := RemovePrefix(Tag, Strip(d, Fence));
    NormalizedFacts(d, |d| - |TrimLeft(d, Fence)|, Strip(d, Fence), r);
    r
  }

  /** What each of the three steps contributes to `NormalizeReply`'s
      contract. */
  lemma NormalizedFacts(d: string, start: nat, stripped: string, r: string)
    requires InfixAt(stripped, d, start)
    requires stripped == [] || stripped[|stripped| - 1] !in Fence
    requires |r| <= |stripped| && r == stripped[|stripped| - |r|..]
    ensures |r| <= |d|
    ensures !EndsWith(r, "`")
    ensures IsInfix(r, d)
  {
    if r != [] {
      assert r[|r| - 1] == stripped[|stripped| - 1];
      assert r[|r| - 1..] == [r[|r| - 1]];
    }
    assert InfixAt(r, stripped, |stripped| - |r|);
    InfixAtTrans(r, stripped, d, start, |stripped| - |r|);
  }

  /** A body that does not end in a backtick (it may be empty or start with
      anything): a fence cannot eat into it from the right. */
  predicate FenceSafe(body: string)
  {
    body == [] || body[|body| - 1] != '`'
  }

  /** A fenced reply: "```json", the payload, "```" and whatever follows. */
  function Fenced(body: string, trailer: string): string
  {
    Fence + Tag + body + Fence + trailer
  }

  /** Stripping from the left removes one leading backtick and goes on. */
  lemma TrimLeftBacktick(rest: string)
    ensures TrimLeft("`" + rest, Fence) == TrimLeft(rest, Fence)
  {
    var t := "`" + rest;
    assert t[0] in Fence;
    assert t[1..] == rest;
  }

  /** Stripping from the left stops at the first non-backtick. */
  lemma TrimLeftFence(inner: string)
    requires |inner| > 0 && inner[0] != '`'
    ensures TrimLeft(Fence + inner, Fence) == inner
  {
    assert inner[0] !in Fence;
    assert TrimLeft(inner, Fence) == inner;
    var one := "`" + inner;
    var two := "`" + one;
    var three := "`" + two;
    TrimLeftBacktick(inner);
    TrimLeftBacktick(one);
    TrimLeftBacktick(two);
    assert three == Fence + inner;
  }

  /** Stripping from the right removes one trailing backtick and goes on. */
  lemma TrimRightBacktick(rest: string)
    ensures TrimRight(rest + "`", Fence) == TrimRight(rest, Fence)
  {
    var t := rest + "`";
    assert t[|t| - 1] in Fence;
    assert t[..|t| - 1] == rest;
  }

  /** Stripping from the right stops at the last non-backtick. */
  lemma TrimRightFence(t: string)
    requires |t| > 0 && t[|t| - 1] != '`'
    ensures TrimRight(t + "``", Fence) == t
    ensures TrimRight(t + Fence, Fence) == t
  {
    assert t[|t| - 1] !in Fence;
    assert TrimRight(t, Fence) == t;
    var one := t + "`";
    var two := one + "`";
    var three := two + "`";
    TrimRightBacktick(t);
    TrimRightBacktick(one);
    TrimRightBacktick(two);
    assert two == t + "``";
    assert three == t + Fence;
  }

  /** Strip on "```json" + body + a closing run of one to three backticks. */
  lemma StripFencedCore(body: string, closing: string)
    requires FenceSafe(body)
    requires closing == "``" || closing == Fence
    ensures Strip(Fence + (Tag + body + closing), Fence) == Tag + body
  {
    var t := Tag + body;
    assert t[|t| - 1] != '`';
    assert (t + closing)[0] == 'j';
    TrimLeftFence(t + closing);
    TrimRightFence(t);
  }

  /** A reply "```json" + body + "```" + c, for any single trailing character
      c, hands exactly `body` to the parser. */
  lemma {:induction false} NormalizeFencedReply(body: string, c: char)
    requires FenceSafe(body)
    ensures NormalizeReply(Fenced(body, [c])) == body
  {
    assert DropLast(Fenced(body, [c])) == Fence + (Tag + body + Fence);
    StripFencedCore(body, Fence);
    assert RemovePrefix(Tag, Tag + body) == body;
  }

  /** The same holds when the reply ends with the closing fence itself and no
      trailing character: dropping one backtick leaves two, and strip removes
      those as readily as three. */
  lemma {:induction false} NormalizeFencedReplyNoTrailer(body: string)
    requires FenceSafe(body)
    ensures NormalizeReply(Fenced(body, [])) == body
  {
    assert DropLast(Fenced(body, [])) == Fence + (Tag + body + "``");
    StripFencedCore(body, "``");
    assert RemovePrefix(Tag, Tag + body) == body;
  }

  /** The last character of the reply never reaches the parser: whatever it
      is, the result is the same. */
  lemma LastCharacterIgnored(text: string, c: char, d: char)
    ensures NormalizeReply(text + [c]) == NormalizeReply(text + [d])
  {
    assert DropLast(text + [c]) == text;
    assert DropLast(text + [d]) == text;
  }

  /** A payload with no backtick and no leading "json" (such as a bare JSON
      object), sent without a fence, reaches the parser without its last
      character: the closing brace of `{...}` is lost. */
  lemma {:induction false} UnfencedReplyLosesLastCharacter(body: string)
    requires |body| > 0
    requires forall k :: 0 <= k < |body| ==> body[k] != '`'
    requires !(Tag <= body)
    ensures NormalizeReply(body) == body[..|body| - 1]
  {
    var d := body[..|body| - 1];
    assert DropLast(body) == d;
    assert TrimLeft(d, Fence) == d;
    assert TrimRight(d, Fence) == d;
    assert !(Tag <= d);
  }

  /** The unfenced reply `{"isPhishing":0.1}` is handed over as
      `{"isPhishing":0.1`, which is not JSON. */
  lemma UnfencedObjectExample()
    ensures NormalizeReply("{\"isPhishing\":0.1}") == "{\"isPhishing\":0.1"
  {
    var body := "{\"isPhishing\":0.1}";
    assert forall k :: 0 <= k < |body| ==> body[k] != '`';
    assert body[0] != Tag[0];
    UnfencedReplyLosesLastCharacter(body);
  }

  // ---------------------------------------------------------------------
  // The tolerant normaliser: surrounding whitespace goes first, so no
  // payload character is dropped positionally.

  /** The ASCII characters Python's argument-less `strip()` removes: space,
      tab, line feed, carriage return, vertical tab, form feed and the four
      information separators 0x1C-0x1F. */
  const Whitespace: string := " \t\n\r\U{B}\U{C}\U{1C}\U{1D}\U{1E}\U{1F}"

  /** Trim whitespace, strip the fence characters, remove one "json" tag. */
  function NormalizeReplyTolerant(text: string): string
  {
    RemovePrefix(Tag, Strip(Strip(text, Whitespace), Fence))
  }

  /** A payload that is already bare: it neither starts nor ends with
      whitespace or a backtick and does not start with "json". */
  predicate Bare(body: string)
  {
    && (body == [] || (body[0] !in Whitespace + Fence && body[|body| - 1] !in Whitespace + Fence))
    && !(Tag <= body)
  }

  /** A bare payload reaches the parser unchanged. */
  lemma {:induction false} TolerantKeepsBarePayload(body: string)
    requires Bare(body)
    ensures NormalizeReplyTolerant(body) == body
  {
    if body != [] {
      assert body[0] !in Whitespace && body[|body| - 1] !in Whitespace;
      assert body[0] !in Fence && body[|body| - 1] !in Fence;
    }
    assert Strip(body, Whitespace) == body;
    assert Strip(body, Fence) == body;
  }

  /** A fenced payload followed by any run of whitespace reaches the parser
      as exactly the payload. */
  lemma {:induction false} TolerantUnwrapsFence(body: string, trailer: string)
    requires FenceSafe(body)
    requires forall k :: 0 <= k < |trailer| ==> trailer[k] in Whitespace
    ensures NormalizeReplyTolerant(Fenced(body, trailer)) == body
  {
    var core := Fence + (Tag + body + Fence);
    assert Fenced(body, trailer) == core + trailer;
    StripWhitespaceAroundFence(core, trailer);
    StripFencedCore(body, Fence);
    assert RemovePrefix(Tag, Tag + body) == body;
  }

  /** Whitespace after a closing backtick is stripped; nothing before the
      opening backtick is. */
  lemma StripWhitespaceAroundFence(core: string, trailer: string)
    requires |core| > 0 && core[0] == '`' && core[|core| - 1] == '`'
    requires forall k :: 0 <= k < |trailer| ==> trailer[k] in Whitespace
    ensures Strip(core + trailer, Whitespace) == core
  {
    var text := core + trailer;
    assert text[0] !in Whitespace;
    assert TrimLeft(text, Whitespace) == text;
    TrimRightWhitespace(core, trailer);
  }

  lemma {:induction false} TrimRightWhitespace(core: string, trailer: string)
    requires |core| > 0 && core[|core| - 1] == '`'
    requires forall k :: 0 <= k < |trailer| ==> trailer[k] in Whitespace
    ensures TrimRight(core + trailer, Whitespace) == core
    decreases |trailer|
  {
    if trailer == [] {
      assert core + trailer == core;
    } else {
      var t := trailer[..|trailer| - 1];
      assert (core + trailer)[..|core + trailer| - 1] == core + t;
      TrimRightWhitespace(core, t);
    }
  }

  /** Fence removal is transparent: a fenced payload and the same payload
      sent bare normalise to the same string. */
  lemma FenceTransparentWhenTolerant(body: string, trailer: string)
    requires Bare(body)
    requires forall k :: 0 <= k < |trailer| ==> trailer[k] in Whitespace
    ensures NormalizeReplyTolerant(Fenced(body, trailer)) == NormalizeReplyTolerant(body)
  {
    TolerantUnwrapsFence(body, trailer);
    TolerantKeepsBarePayload(body);
  }

  // ---------------------------------------------------------------------
  // The user prompt: a template with two named fields, filled by
  // `str.format(site_url=..., languages=...)`.

  datatype Segment = Literal(text: string) | SiteUrlField | LanguagesField

  type Template = seq<Segment>

  /** What one segment becomes in the filled text. */
  function SegmentText(segment: Segment, siteUrl: string, languages: string): string
  {
    match segment
    case Literal(text) => text
    case SiteUrlField => siteUrl
    case LanguagesField => languages
  }

  /** Every segment's text occurs somewhere in `filled`. */
  ghost predicate SegmentsOccur(template: Template, siteUrl: string, languages: string, filled: string)
  {
    forall i :: 0 <= i < |template| ==> IsInfix(SegmentText(template[i], siteUrl, languages), filled)
  }

  /** `template.format(site_url=siteUrl, languages=languages)`, where
      `languages` is the already rendered text of the language list. Every
      literal and every field's value occurs in the result. */
  function Fill(template: Template, siteUrl: string, languages: string): (r: string)
    ensures template == [] ==> r == []
    ensures SegmentsOccur(template, siteUrl, languages, r)
    decreases |template|
  {
    if template == [] then []
    else
      var head := SegmentText(template[0], siteUrl, languages);
      var tail := Fill(template[1..], siteUrl, languages);
      FillFacts(template, siteUrl, languages, head, tail);
      head + tail
  }

  /** The segments of a non-empty template occur in its head's text
      followed by the filled tail. */
  lemma FillFacts(template: Template, siteUrl: string, languages: string, head: string, tail: string)
    requires template != [] && head == SegmentText(template[0], siteUrl, languages)
    requires SegmentsOccur(template[1..], siteUrl, languages, tail)
    ensures SegmentsOccur(template, siteUrl, languages, head + tail)
  {
    forall i | 0 <= i < |template|
      ensures IsInfix(SegmentText(template[i], siteUrl, languages), head + tail)
    {
      var t := SegmentText(template[i], siteUrl, languages);
      if i == 0 {
        assert (head + tail)[0..|head|] == head;
        assert InfixAt(t, head + tail, 0);
      } else {
        assert template[1..][i - 1] == template[i];
        var j: nat :| InfixAt(t, tail, j);
        assert (head + tail)[|head| + j..|head| + j + |t|] == tail[j..j + |t|];
        assert InfixAt(t, head + tail, |head| + j);
      }
    }
  }

  /** Filling distributes over concatenation of templates. */
  lemma {:induction false} FillAppend(a: Template, b: Template, siteUrl: string, languages: string)
    ensures Fill(a + b, siteUrl, languages) == Fill(a, siteUrl, languages) + Fill(b, siteUrl, languages)
    decreases |a|
  {
    if a == [] {
      assert a + b == b;
    } else {
      assert (a + b)[1..] == a[1..] + b;
      FillAppend(a[1..], b, siteUrl, languages);
    }
  }

  /** The shape of the user prompt: prose, the site URL, prose, the
      languages, prose. */
  function UserPrompt(intro: string, middle: string, outro: string): Template
  {
    [Literal(intro), SiteUrlField, Literal(middle), LanguagesField, Literal(outro)]
  }

  /** The user prompt as five one-segment templates joined together. */
  lemma UserPromptSegments(intro: string, middle: string, outro: string)
    ensures UserPrompt(intro, middle, outro)
      == [Literal(intro)] + ([SiteUrlField] + ([Literal(middle)] + ([LanguagesField] + [Literal(outro)])))
  {
  }

  /** Filling a template that starts with `segment`. */
  lemma FillCons(segment: Segment, rest: Template, siteUrl: string, languages: string)
    ensures Fill([segment] + rest, siteUrl, languages) == SegmentText(segment, siteUrl, languages) + Fill(rest, siteUrl, languages)
  {
    assert ([segment] + rest)[1..] == rest;
  }

  /** The filled user prompt holds the site URL and then the languages, each
      exactly once and between the fixed pieces of prose. */
  lemma FillUserPrompt(intro: string, middle: string, outro: string, siteUrl: string, languages: string)
    ensures Fill(UserPrompt(intro, middle, outro), siteUrl, languages)
      == intro + siteUrl + middle + languages + outro
  {
    var t4: Template := [Literal(outro)];
    var t3 := [LanguagesField] + t4;
    var t2 := [Literal(middle)] + t3;
    var t1 := [SiteUrlField] + t2;
    UserPromptSegments(intro, middle, outro);
    assert Fill(t4, siteUrl, languages) == outro by {
      FillCons(Literal(outro), [], siteUrl, languages);
      assert [Literal(outro)] + [] == t4;
    }
    assert Fill(t3, siteUrl, languages) == languages + outro by {
      FillCons(LanguagesField, t4, siteUrl, languages);
    }
    assert Fill(t2, siteUrl, languages) == middle + (languages + outro) by {
      FillCons(Literal(middle), t3, siteUrl, languages);
    }
    assert Fill(t1, siteUrl, languages) == siteUrl + (middle + (languages + outro)) by {
      FillCons(SiteUrlField, t2, siteUrl, languages);
    }
    assert Fill(UserPrompt(intro, middle, outro), siteUrl, languages)
        == intro + (siteUrl + (middle + (languages + outro))) by {
      FillCons(Literal(intro), t1, siteUrl, languages);
    }
    ConcatRegroup(intro, siteUrl, middle, languages, outro);
  }

  /** Regrouping a five-part concatenation. */
  lemma ConcatRegroup(a: string, b: string, c: string, d: string, e: string)
    ensures a + (b + (c + (d + e))) == a + b + c + d + e
  {
  }

  // ---------------------------------------------------------------------
  // The whole inference call.

  datatype InferError =
    | ModelCallFailed   // the generative model call raised
    | MalformedReply    // json.loads raised on the normalised text

  /** `infer`: fill the prompt, ask the model, normalise and parse the reply.
      Whatever the parser produces is returned untouched; no field is
      checked, defaulted or range-checked. */
  function Infer<J>(template: Template, siteUrl: string, languages: string,
                    generate: string -> Option<string>, parse: string -> Option<J>): (r: Result<J, InferError>)
    ensures generate(Fill(template, siteUrl, languages)).None? <==> r == Failure(ModelCallFailed)
    ensures r.Success? ==>
              && generate(Fill(template, siteUrl, languages)).Some?
              && Some(r.value) == parse(NormalizeReply(generate(Fill(template, siteUrl, languages)).value))
    ensures generate(Fill(template, siteUrl, languages)).Some? ==>
              (r.Success? <==> parse(NormalizeReply(generate(Fill(template, siteUrl, languages)).value)).Some?)
    ensures r.Failure? && generate(Fill(template, siteUrl, languages)).Some? ==> r.error == MalformedReply
  {
    match generate(Fill(template, siteUrl, languages))
    case None => Failure(ModelCallFailed)
    case Some(text) =>
      match parse(NormalizeReply(text))
      case None => Failure(MalformedReply)
      case Some(value) => Success(value)
  }

  /** When the model answers with a fenced payload, the caller receives
      exactly what the parser makes of the payload, failure included. */
  lemma InferFencedReply<J>(template: Template, siteUrl: string, languages: string,
                            generate: string -> Option<string>, parse: string -> Option<J>,
                            body: string, c: char)
    requires FenceSafe(body)
    requires generate(Fill(template, siteUrl, languages)) == Some(Fenced(body, [c]))
    ensures parse(body).Some? ==> Infer(template, siteUrl, languages, generate, parse) == Success(parse(body).value)
    ensures parse(body).None? ==> Infer(template, siteUrl, languages, generate, parse) == Failure(MalformedReply)
  {
    NormalizeFencedReply(body, c);
  }
}
