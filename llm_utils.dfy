/**
 * The pure parts of `LLMUtils` (llm-utils.js): merging the query options,
 * suffixing the system prompt with the schema instructions, routing a model
 * to its endpoint and key, wrapping the user content, the text passes that
 * clean a reply before `JSON.parse`, and the schema formatter. The HTTP
 * exchange and `JSON.parse` itself are parameters: the reply text is an
 * input and the parser is a function `string -> Option<J>`.
 */
module LlmUtils {
  import opened Wrappers

  // ------------------------------------------------------------ strings

  predicate StartsWith(s: string, prefix: string) {
    |prefix| <= |s| && s[..|prefix|] == prefix
  }

  /** `String.prototype.includes`. */
  predicate Contains(s: string, part: string)
    decreases |s|
  {
    StartsWith(s, part) || (|s| > 0 && Contains(s[1..], part))
  }

  function Spaces(n: nat): (r: string)
    ensures |r| == n && forall i :: 0 <= i < n ==> r[i] == ' '
  {
    if n == 0 then "" else " " + Spaces(n - 1)
  }

  /** `Array.prototype.join(sep)`. */
  function Join(parts: seq<string>, sep: string): string {
    if |parts| == 0 then ""
    else if |parts| == 1 then parts[0]
    else parts[0] + sep + Join(parts[1..], sep)
  }

  // ------------------------------------------------------------ options

  datatype ContentPart = TextPart(text: string) | ImagePart(imageUrl: string)

  /** The user content of a query: a ready array of parts, or a plain string. */
  datatype UserContent = PartList(parts: seq<ContentPart>) | PlainText(text: string)

  datatype Property = Property(key: string, value: Schema)

  /**
   * A response schema as the callers write it. `type` decides the form:
   * `"object"` with `properties`, `"array"` with `items` (`None` when the
   * key is absent), anything else a scalar with an optional `enum`.
   */
  datatype Schema =
    | ObjectSchema(properties: seq<Property>, description: Option<string>)
    | ArraySchema(items: Option<Schema>, description: Option<string>)
    | ScalarSchema(typeName: string, choices: Option<seq<string>>, description: Option<string>)

  /** The `options` argument of `query`: `None` is a key the caller left out. */
  datatype QueryOptions = QueryOptions(
    model: Option<string>,
    temperature: Option<real>,
    maxTokens: Option<int>,
    parseJson: Option<bool>,
    expectedSchema: Option<Schema>)

  datatype Settings = Settings(
    model: string,
    temperature: real,
    maxTokens: int,
    parseJson: bool,
    expectedSchema: Option<Schema>)

  /**
   * `{ ...defaultOptions, ...options }`: the defaults are the positional
   * arguments, JSON parsing on and no schema; every key the caller gives wins.
   */
  function MergeOptions(options: QueryOptions, temperature: real, model: string, maxTokens: int): (s: Settings)
    ensures options.model.Some? ==> s.model == options.model.value
    ensures options.model.None? ==> s.model == model
    ensures options.temperature.Some? ==> s.temperature == options.temperature.value
    ensures options.temperature.None? ==> s.temperature == temperature
    ensures options.maxTokens.Some? ==> s.maxTokens == options.maxTokens.value
    ensures options.maxTokens.None? ==> s.maxTokens == maxTokens
    ensures s.parseJson == (options.parseJson != Some(false))
    ensures s.expectedSchema == options.expectedSchema
  {
    Settings(options.model.GetOr(model), options.temperature.GetOr(temperature),
             options.maxTokens.GetOr(maxTokens), options.parseJson.GetOr(true), options.expectedSchema)
  }

  /** With no options given the query runs on its positional arguments, parsing JSON, without a schema. */
  lemma EmptyOptionsGiveDefaults(temperature: real, model: string, maxTokens: int)
    ensures MergeOptions(QueryOptions(None, None, None, None, None), temperature, model, maxTokens)
         == Settings(model, temperature, maxTokens, true, None)
  {
  }

  /** The system prompt actually sent: a schema appends its format instructions after a blank line. */
  function SystemPromptFor(systemPrompt: string, settings: Settings): (p: string)
    ensures settings.expectedSchema.None? ==> p == systemPrompt
    ensures settings.expectedSchema.Some? ==>
      StartsWith(p, systemPrompt + "\n\n") &&
      p[|systemPrompt| + 2..] == CreateJsonFormatInstructions(settings.expectedSchema.value)
  {
    match settings.expectedSchema
    case None => systemPrompt
    case Some(schema) => systemPrompt + "\n\n" + CreateJsonFormatInstructions(schema)
  }

  // ------------------------------------------------------------ routing

  const OpenAiUrl: string := "https://api.openai.com/v1/chat/completions"
  const GroqUrl: string := "https://api.groq.com/openai/v1/chat/completions"

  datatype Route = Route(url: string, apiKey: string, model: string)

  /**
   * The endpoint, key and model name of a query. The decision looks at the
   * `model` ARGUMENT, not at the merged options; `storedGroqKey` is the
   * `groq_api_key` entry of local storage (`None` when absent), used unless
   * it is empty.
   */
  function RouteFor(model: string, apiKey: string, storedGroqKey: Option<string>, mergedModel: string): (r: Route)
    ensures r.url == GroqUrl <==> StartsWith(model, "llama")
    ensures r.url == OpenAiUrl <==> !StartsWith(model, "llama")
    ensures !StartsWith(model, "llama") ==> r.apiKey == apiKey && r.model == mergedModel
    ensures StartsWith(model, "llama") ==>
      r.apiKey == (if storedGroqKey.Some? && storedGroqKey.value != "" then storedGroqKey.value else apiKey)
    ensures StartsWith(model, "llama") && Contains(model, "llama-4") ==> r.model == "meta-llama/" + model
    ensures StartsWith(model, "llama") && !Contains(model, "llama-4") ==> r.model == mergedModel
  {
    assert OpenAiUrl[12] != GroqUrl[12];
    if StartsWith(model, "llama") then
      var key := if storedGroqKey.Some? && storedGroqKey.value != "" then storedGroqKey.value else apiKey;
      Route(GroqUrl, key, if Contains(model, "llama-4") then "meta-llama/" + model else mergedModel)
    else Route(OpenAiUrl, apiKey, mergedModel)
  }

  /** A plain string is wrapped as a single text part; an array goes out as is. */
  function NormalizeUserContent(content: UserContent): (parts: seq<ContentPart>)
    ensures content.PartList? ==> parts == content.parts
    ensures content.PlainText? ==> parts == [TextPart(content.text)]
  {
    match content
    case PartList(ps) => ps
    case PlainText(t) => [TextPart(t)]
  }

  datatype Request = Request(
    url: string,
    apiKey: string,
    model: string,
    systemPrompt: string,
    userContent: seq<ContentPart>,
    temperature: real,
    maxTokens: int)

  /** Everything `query` sends, from its arguments and the stored Groq key. */
  function BuildRequest(apiKey: string, systemPrompt: string, content: UserContent, options: QueryOptions,
                        temperature: real, model: string, maxTokens: int, storedGroqKey: Option<string>): (req: Request)
    ensures var s := MergeOptions(options, temperature, model, maxTokens);
      && req.url == RouteFor(model, apiKey, storedGroqKey, s.model).url
      && req.apiKey == RouteFor(model, apiKey, storedGroqKey, s.model).apiKey
      && req.model == RouteFor(model, apiKey, storedGroqKey, s.model).model
      && req.systemPrompt == SystemPromptFor(systemPrompt, s)
      && req.userContent == NormalizeUserContent(content)
      && req.temperature == s.temperature && req.maxTokens == s.maxTokens
  {
    var s := MergeOptions(options, temperature, model, maxTokens);
    var route := RouteFor(model, apiKey, storedGroqKey, s.model);
    Request(route.url, route.apiKey, route.model, SystemPromptFor(systemPrompt, s),
            NormalizeUserContent(content), s.temperature, s.maxTokens)
  }

  /**
   * An options `model` never redirects a query: a non-Llama argument goes to
   * OpenAI whatever the options name, and for a Llama 4 argument the argument,
   * not the option, is the name sent.
   */
  lemma RoutingIgnoresModelOption(apiKey: string, systemPrompt: string, content: UserContent, options: QueryOptions,
                                  temperature: real, model: string, maxTokens: int, stored: Option<string>)
    requires options.model.Some?
    ensures var req := BuildRequest(apiKey, systemPrompt, content, options, temperature, model, maxTokens, stored);
      && (!StartsWith(model, "llama") ==> req.url == OpenAiUrl && req.model == options.model.value)
      && (StartsWith(model, "llama") && Contains(model, "llama-4") ==> req.model == "meta-llama/" + model)
  {
  }

  // ------------------------------------------------------------ cleaning the reply

  /** `indexOf(c)`: the first position of `c`, or -1. */
  function IndexOfChar(s: string, c: char): (k: int)
    ensures -1 <= k < |s|
    ensures k == -1 <==> c !in s
    ensures k >= 0 ==> s[k] == c && c !in s[..k]
  {
    if |s| == 0 then -1
    else if s[0] == c then 0
    else var k := IndexOfChar(s[1..], c); if k == -1 then -1 else k + 1
  }

  /**
   * `content.substring(content.indexOf('{'))`: the text from the first brace
   * on. Without a brace `indexOf` gives -1, which `substring` reads as 0, so
   * the whole text is kept.
   */
  function DropBeforeBrace(s: string): (r: string)
    ensures '{' !in s ==> r == s
    ensures '{' in s ==> 0 < |r| <= |s| && r[0] == '{' && s == s[..|s| - |r|] + r && '{' !in s[..|s| - |r|]
  {
    var i := IndexOfChar(s, '{');
    if i == -1 then s else s[i..]
  }

  /** Nothing before the brace survives: cleaning an already trimmed text changes nothing. */
  lemma DropBeforeBraceIdempotent(s: string)
    ensures DropBeforeBrace(DropBeforeBrace(s)) == DropBeforeBrace(s)
  {
  }

  const JsonFence: string := "```json"
  const Fence: string := "```"

  /**
   * `replace(/<token>\n?/g, '')`: scanning left to right, each occurrence of
   * `token` is deleted together with one newline right after it.
   */
  function StripToken(s: string, token: string): (r: string)
    requires |token| > 0
    ensures |r| <= |s|
    decreases |s|
  {
    if |s| == 0 then ""
    else if StartsWith(s, token) then
      var rest := s[|token|..];
      StripToken(if |rest| > 0 && rest[0] == '\n' then rest[1..] else rest, token)
    else [s[0]] + StripToken(s[1..], token)
  }

  /** A text that does not start with the token's first character keeps its first character. */
  lemma {:induction false} StripTokenKeepsHead(s: string, token: string)
    requires |token| > 0 && |s| > 0 && s[0] != token[0]
    ensures |StripToken(s, token)| > 0 && StripToken(s, token)[0] == s[0]
  {
  }

  /** Text free of the token's first character is kept as it is. */
  lemma {:induction false} StripTokenKeepsPlain(a: string, b: string, token: string)
    requires |token| > 0 && token[0] !in a
    ensures StripToken(a + b, token) == a + StripToken(b, token)
    decreases |a|
  {
    if |a| == 0 {
      assert a + b == b;
    } else {
      assert (a + b)[0] == a[0];
      assert (a + b)[1..] == a[1..] + b;
      StripTokenKeepsPlain(a[1..], b, token);
    }
  }

  /** The token is deleted together with one newline right after it. */
  lemma StripTokenDeletesToken(token: string, b: string)
    requires |token| > 0
    ensures StripToken(token + b, token) ==
      StripToken(if |b| > 0 && b[0] == '\n' then b[1..] else b, token)
  {
    assert StartsWith(token + b, token);
    assert (token + b)[|token|..] == b;
  }

  /** The two fence passes, ```` ```json ```` first. */
  function StripFences(s: string): string {
    StripToken(StripToken(s, JsonFence), Fence)
  }

  predicate HasFenceAt(r: string, i: int)
    requires 0 <= i
  {
    i + 3 <= |r| && r[i] == '`' && r[i + 1] == '`' && r[i + 2] == '`'
  }

  /** A text not starting with two backticks keeps that property through the fence pass. */
  lemma {:induction false} NoDoubleTickHead(t: string)
    requires |t| < 2 || t[0] != '`' || t[1] != '`'
    ensures var r := StripToken(t, Fence); |r| < 2 || r[0] != '`' || r[1] != '`'
  {
    if |t| == 0 {
    } else if t[0] != '`' {
      StripTokenKeepsHead(t, Fence);
    } else {
      assert !StartsWith(t, Fence);
      if |t| > 1 {
        StripTokenKeepsHead(t[1..], Fence);
      }
    }
  }

  /** After the ```` ``` ```` pass no three backticks in a row are left anywhere. */
  lemma {:induction false} NoFenceRemains(s: string)
    ensures forall i :: 0 <= i ==> !HasFenceAt(StripToken(s, Fence), i)
    decreases |s|
  {
    if |s| == 0 {
    } else if StartsWith(s, Fence) {
      var rest := s[3..];
      NoFenceRemains(if |rest| > 0 && rest[0] == '\n' then rest[1..] else rest);
    } else {
      var tail := StripToken(s[1..], Fence);
      NoFenceRemains(s[1..]);
      var r := StripToken(s, Fence);
      assert r == [s[0]] + tail;
      if s[0] == '`' {
        assert |s| < 3 || s[1] != '`' || s[2] != '`';
        NoDoubleTickHead(s[1..]);
      }
      forall i | 0 <= i ensures !HasFenceAt(r, i) {
        if i > 0 {
          assert !HasFenceAt(tail, i - 1);
        }
      }
    }
  }

  /** The fence passes leave a text without backticks untouched. */
  lemma {:induction false} StripTokenWithoutTicks(s: string, token: string)
    requires |token| > 0 && token[0] == '`' && '`' !in s
    ensures StripToken(s, token) == s
    decreases |s|
  {
    if |s| > 0 {
      assert s[0] != '`';
      StripTokenWithoutTicks(s[1..], token);
    }
  }

  predicate IsLineTerminator(c: char) {
    c == '\n' || c == '\r' || c == '\U{2028}' || c == '\U{2029}'
  }

  /** The first line terminator at or after `from`, or the end of the text. */
  function LineEnd(s: string, from: nat): (k: nat)
    requires from <= |s|
    ensures from <= k <= |s|
    ensures forall j :: from <= j < k ==> !IsLineTerminator(s[j])
    ensures k < |s| ==> IsLineTerminator(s[k])
    decreases |s| - from
  {
    if from == |s| || IsLineTerminator(s[from]) then from else LineEnd(s, from + 1)
  }

  /** A star-slash closer starts at `j`. */
  predicate ClosesAt(r: string, j: int) {
    0 <= j < |r| - 1 && r[j] == '*' && r[j + 1] == '/'
  }

  /** A slash-star opener starts at `i`. */
  predicate OpensAt(r: string, i: int) {
    0 <= i < |r| - 1 && r[i] == '/' && r[i + 1] == '*'
  }

  predicate NoCloser(r: string) {
    forall j | 0 <= j < |r| :: !ClosesAt(r, j)
  }

  // The first star-slash closer starting at or after `from`, or -1.
  function CloseOfComment(s: string, from: nat): (k: int)
    requires from <= |s|
    ensures k == -1 || (from <= k && k + 2 <= |s| && s[k] == '*' && s[k + 1] == '/')
    ensures k != -1 ==> ClosesAt(s, k) && forall j :: from <= j < k ==> !ClosesAt(s, j)
    ensures k == -1 ==> forall j :: from <= j ==> !ClosesAt(s, j)
    decreases |s| - from
  {
    if from + 2 > |s| then -1
    else if s[from] == '*' && s[from + 1] == '/' then from
    else CloseOfComment(s, from + 1)
  }

  // The comment pass of `parseJsonResponse`, one regular-expression replace:
  // at each position a block comment (slash-star up to the FIRST star-slash)
  // is deleted; failing that, two slashes and the rest of their line (the
  // line terminator stays). Slashes inside a JSON string are deleted too,
  // and an unclosed block opener is kept.
  function StripComments(s: string): (r: string)
    ensures |r| <= |s|
    decreases |s|
  {
    if |s| < 2 then s
    else if s[0] == '/' && s[1] == '*' && CloseOfComment(s, 2) != -1 then
      StripComments(s[CloseOfComment(s, 2) + 2..])
    else if s[0] == '/' && s[1] == '/' then
      StripComments(s[LineEnd(s, 2)..])
    else [s[0]] + StripComments(s[1..])
  }

  lemma {:induction false} StripCommentsKeepsHead(s: string)
    requires |s| > 0 && s[0] != '/'
    ensures |StripComments(s)| > 0 && StripComments(s)[0] == s[0]
  {
  }

  predicate NoDoubleSlash(r: string) {
    forall i :: 0 <= i < |r| - 1 ==> !(r[i] == '/' && r[i + 1] == '/')
  }

  /** A character in front of a text without `//` adds none, unless both are slashes. */
  lemma ConsNoDoubleSlash(c: char, tail: string)
    requires NoDoubleSlash(tail)
    requires c == '/' ==> |tail| == 0 || tail[0] != '/'
    ensures NoDoubleSlash([c] + tail)
  {
    var r := [c] + tail;
    forall i | 0 <= i < |r| - 1 ensures !(r[i] == '/' && r[i + 1] == '/') {
      if i > 0 {
        assert r[i] == tail[i - 1] && r[i + 1] == tail[i];
      }
    }
  }

  /** After the comment pass no `//` is left anywhere. */
  lemma {:induction false} NoLineCommentRemains(s: string)
    ensures NoDoubleSlash(StripComments(s))
    decreases |s|
  {
    if |s| < 2 {
    } else if s[0] == '/' && s[1] == '*' && CloseOfComment(s, 2) != -1 {
      var rest := s[CloseOfComment(s, 2) + 2..];
      NoLineCommentRemains(rest);
      assert StripComments(s) == StripComments(rest);
    } else if s[0] == '/' && s[1] == '/' {
      var rest := s[LineEnd(s, 2)..];
      NoLineCommentRemains(rest);
      assert StripComments(s) == StripComments(rest);
    } else {
      NoLineCommentRemains(s[1..]);
      assert StripComments(s) == [s[0]] + StripComments(s[1..]);
      if s[0] == '/' {
        StripCommentsKeepsHead(s[1..]);
      }
      ConsNoDoubleSlash(s[0], StripComments(s[1..]));
    }
  }

  /** Text without a slash is kept as it is, in front of whatever the rest becomes. */
  lemma {:induction false} StripCommentsKeepsSlashFree(a: string, b: string)
    requires '/' !in a
    ensures StripComments(a + b) == a + StripComments(b)
    decreases |a|
  {
    if |a| == 0 {
      assert a + b == b;
    } else if |a + b| >= 2 {
      var x := a + b;
      assert x[0] == a[0] && x[1..] == a[1..] + b;
      StripCommentsPlainStep(x);
      StripCommentsKeepsSlashFree(a[1..], b);
      assert a == [a[0]] + a[1..];
    } else {
      assert b == [];
      assert a + b == a;
    }
  }

  /** A first character other than a slash is kept, and the pass goes on after it. */
  lemma StripCommentsPlainStep(x: string)
    requires |x| >= 2 && x[0] != '/'
    ensures StripComments(x) == [x[0]] + StripComments(x[1..])
  {
  }

  /** A block comment whose body holds no closer is deleted whole, closer included. */
  lemma BlockCommentDeleted(c: string, b: string)
    requires NoCloser(c)
    ensures StripComments("/*" + c + "*/" + b) == StripComments(b)
  {
    var x := "/*" + c + "*/" + b;
    var e := |c| + 2;
    assert ClosesAt(x, e);
    forall j | 2 <= j < e ensures !ClosesAt(x, j) {
      if j + 1 < e {
        assert x[j] == c[j - 2] && x[j + 1] == c[j - 1];
        assert !ClosesAt(c, j - 2);
      } else {
        assert x[j + 1] == '*';
      }
    }
    assert CloseOfComment(x, 2) == e;
    assert x[e + 2..] == b;
  }

  /** A line comment is deleted up to its line terminator, which stays. */
  lemma LineCommentDeleted(c: string, t: char, b: string)
    requires IsLineTerminator(t) && forall j :: 0 <= j < |c| ==> !IsLineTerminator(c[j])
    ensures StripComments("//" + c + [t] + b) == [t] + StripComments(b)
  {
    var x := "//" + c + [t] + b;
    LineEndAt(x, 2, |c| + 2);
    assert x[|c| + 2..] == [t] + b;
    StripCommentsKeepsSlashFree([t], b);
  }

  /** The line end found from `from` is the first terminator at or after it. */
  lemma {:induction false} LineEndAt(s: string, from: nat, e: nat)
    requires from <= e < |s| && IsLineTerminator(s[e])
    requires forall j :: from <= j < e ==> !IsLineTerminator(s[j])
    ensures LineEnd(s, from) == e
    decreases e - from
  {
    if from < e {
      LineEndAt(s, from + 1, e);
    }
  }

  /** No slash-star opener is followed, anywhere later, by a star-slash closer. */
  predicate NoBlockComment(r: string) {
    forall i | 0 <= i < |r| :: OpensAt(r, i) ==> NoCloser(r[i + 2..])
  }

  /** The comment pass never creates a closer where its input had none. */
  lemma {:induction false} StripCommentsAddsNoCloser(t: string)
    requires NoCloser(t)
    ensures NoCloser(StripComments(t))
    decreases |t|
  {
    if |t| < 2 {
    } else if t[0] == '/' && t[1] == '*' && CloseOfComment(t, 2) != -1 {
      assert false;
    } else if t[0] == '/' && t[1] == '/' {
      var e := LineEnd(t, 2);
      var rest := t[e..];
      forall j ensures !ClosesAt(rest, j) {
        assert !ClosesAt(t, j + e);
      }
      StripCommentsAddsNoCloser(rest);
      assert StripComments(t) == StripComments(rest);
    } else {
      var tail := t[1..];
      forall j ensures !ClosesAt(tail, j) {
        assert !ClosesAt(t, j + 1);
      }
      StripCommentsAddsNoCloser(tail);
      var u := StripComments(tail);
      var r := StripComments(t);
      assert r == [t[0]] + u;
      if t[0] == '*' {
        assert !ClosesAt(t, 0);
        StripCommentsKeepsHead(tail);
      }
      forall j ensures !ClosesAt(r, j) {
        if 0 < j < |r| - 1 {
          assert !ClosesAt(u, j - 1);
        }
      }
    }
  }

  /** After the comment pass no complete slash-star ... star-slash comment is left. */
  lemma {:induction false} NoBlockCommentRemains(s: string)
    ensures NoBlockComment(StripComments(s))
    decreases |s|
  {
    if |s| < 2 {
    } else if s[0] == '/' && s[1] == '*' && CloseOfComment(s, 2) != -1 {
      var rest := s[CloseOfComment(s, 2) + 2..];
      NoBlockCommentRemains(rest);
      assert StripComments(s) == StripComments(rest);
    } else if s[0] == '/' && s[1] == '/' {
      var rest := s[LineEnd(s, 2)..];
      NoBlockCommentRemains(rest);
      assert StripComments(s) == StripComments(rest);
    } else {
      var tail := s[1..];
      var u := StripComments(tail);
      NoBlockCommentRemains(tail);
      var r := StripComments(s);
      assert r == [s[0]] + u;
      forall i | OpensAt(r, i) ensures NoCloser(r[i + 2..]) {
        if i > 0 {
          assert OpensAt(u, i - 1);
          assert r[i + 2..] == u[i + 1..];
        } else {
          StripCommentsKeepsHead(tail);
          UnclosedOpenerKept(s);
        }
      }
    }
  }

  /** An opener the pass keeps has no closer anywhere after it in the output. */
  lemma UnclosedOpenerKept(s: string)
    requires |s| >= 2 && s[0] == '/' && s[1] == '*' && CloseOfComment(s, 2) == -1
    ensures var r := StripComments(s); |r| >= 2 && NoCloser(r[2..])
  {
    var rest := s[2..];
    forall j | 0 <= j < |rest| ensures !ClosesAt(rest, j) {
      assert !ClosesAt(s, j + 2);
    }
    StripCommentsAddsNoCloser(rest);
    var tail := s[1..];
    var r := StripComments(s);
    assert r == [s[0]] + StripComments(tail);
    if |tail| >= 2 {
      assert tail[1..] == rest;
      assert StripComments(tail) == [tail[0]] + StripComments(rest);
      assert r[2..] == StripComments(rest);
    } else {
      assert r == s;
    }
  }

  /** JavaScript's `\s`: the ASCII white space, the line terminators and the Unicode spaces. */
  predicate IsJsSpace(c: char) {
    c == ' ' || c == '\t' || c == '\n' || c == '\U{000B}' || c == '\U{000C}' || c == '\r'
    || c == '\U{00A0}' || c == '\U{1680}' || ('\U{2000}' <= c <= '\U{200A}') || c == '\U{2028}' || c == '\U{2029}'
    || c == '\U{202F}' || c == '\U{205F}' || c == '\U{3000}' || c == '\U{FEFF}'
  }

  /** The length of the white space at the head of `s`. */
  function SpaceRun(s: string): (k: nat)
    ensures k <= |s| && forall j :: 0 <= j < k ==> IsJsSpace(s[j])
    ensures k < |s| ==> !IsJsSpace(s[k])
  {
    if |s| == 0 || !IsJsSpace(s[0]) then 0 else 1 + SpaceRun(s[1..])
  }

  /** `s` is white space up to a closing brace or bracket. */
  predicate ClosesAfterSpace(s: string) {
    SpaceRun(s) < |s| && (s[SpaceRun(s)] == '}' || s[SpaceRun(s)] == ']')
  }

  /**
   * `replace(/,(\s*[}\]])/g, '$1')`: a comma followed by white space and a
   * closing brace or bracket is deleted, and the scan resumes after that
   * closer. One pass: `,,]` becomes `,]`.
   */
  function StripTrailingCommas(s: string): (r: string)
    ensures |r| <= |s|
    decreases |s|
  {
    if |s| == 0 then ""
    else if s[0] == ',' && ClosesAfterSpace(s[1..]) then
      var end := SpaceRun(s[1..]) + 2;
      s[1..end] + StripTrailingCommas(s[end..])
    else [s[0]] + StripTrailingCommas(s[1..])
  }

  function WithoutCommas(s: string): (r: string)
    ensures ',' !in r
  {
    if |s| == 0 then "" else (if s[0] == ',' then "" else [s[0]]) + WithoutCommas(s[1..])
  }

  lemma {:induction false} WithoutCommasAppend(a: string, b: string)
    ensures WithoutCommas(a + b) == WithoutCommas(a) + WithoutCommas(b)
    decreases |a|
  {
    if |a| == 0 {
      assert a + b == b;
    } else {
      assert (a + b)[0] == a[0];
      assert (a + b)[1..] == a[1..] + b;
      WithoutCommasAppend(a[1..], b);
    }
  }

  /** Dropping a leading comma and rewriting the rest with the same commas removed keeps the text without commas. */
  lemma DropCommaStep(s: string, end: nat, tail: string)
    requires 0 < end <= |s| && s[0] == ','
    requires WithoutCommas(tail) == WithoutCommas(s[end..])
    ensures WithoutCommas(s[1..end] + tail) == WithoutCommas(s)
  {
    WithoutCommasAppend(s[1..end], tail);
    WithoutCommasAppend(s[1..end], s[end..]);
    assert s[1..] == s[1..end] + s[end..];
    assert WithoutCommas(s) == WithoutCommas(s[1..]);
  }

  /** Keeping the first character and rewriting the rest the same way keeps the text without commas. */
  lemma KeepStep(s: string, tail: string)
    requires 0 < |s| && WithoutCommas(tail) == WithoutCommas(s[1..])
    ensures WithoutCommas([s[0]] + tail) == WithoutCommas(s)
  {
    assert ([s[0]] + tail)[0] == s[0];
    assert ([s[0]] + tail)[1..] == tail;
  }

  /** The trailing-comma pass deletes commas and nothing else, in place. */
  lemma {:induction false} StripTrailingCommasOnlyDropsCommas(s: string)
    ensures WithoutCommas(StripTrailingCommas(s)) == WithoutCommas(s)
    decreases |s|
  {
    if |s| == 0 {
    } else if s[0] == ',' && ClosesAfterSpace(s[1..]) {
      var end := SpaceRun(s[1..]) + 2;
      StripTrailingCommasOnlyDropsCommas(s[end..]);
      DroppedCommaCase(s);
    } else {
      StripTrailingCommasOnlyDropsCommas(s[1..]);
      KeptCharCase(s);
    }
  }

  /** The step of the proof above where the pass deletes the leading comma. */
  lemma DroppedCommaCase(s: string)
    requires |s| > 0 && s[0] == ',' && ClosesAfterSpace(s[1..])
    requires var end := SpaceRun(s[1..]) + 2;
      WithoutCommas(StripTrailingCommas(s[end..])) == WithoutCommas(s[end..])
    ensures WithoutCommas(StripTrailingCommas(s)) == WithoutCommas(s)
  {
    var end := SpaceRun(s[1..]) + 2;
    StripTrailingCommasDropStep(s);
    DropCommaStep(s, end, StripTrailingCommas(s[end..]));
  }

  /** The step of the proof above where the pass keeps the first character. */
  lemma KeptCharCase(s: string)
    requires |s| > 0 && !(s[0] == ',' && ClosesAfterSpace(s[1..]))
    requires WithoutCommas(StripTrailingCommas(s[1..])) == WithoutCommas(s[1..])
    ensures WithoutCommas(StripTrailingCommas(s)) == WithoutCommas(s)
  {
    assert StripTrailingCommas(s) == [s[0]] + StripTrailingCommas(s[1..]);
    KeepStep(s, StripTrailingCommas(s[1..]));
  }

  /**
   * Which commas the pass deletes, stated character by character: exactly
   * the commas followed by white space and then a closing brace or bracket.
   */
  function DropTrailing(s: string): string {
    if |s| == 0 then ""
    else (if s[0] == ',' && ClosesAfterSpace(s[1..]) then "" else [s[0]]) + DropTrailing(s[1..])
  }

  /** Text without commas passes through the character-by-character deletion unchanged. */
  lemma {:induction false} DropTrailingKeepsCommaFree(a: string, b: string)
    requires ',' !in a
    ensures DropTrailing(a + b) == a + DropTrailing(b)
    decreases |a|
  {
    if |a| > 0 {
      assert (a + b)[0] == a[0];
      assert (a + b)[1..] == a[1..] + b;
      DropTrailingKeepsCommaFree(a[1..], b);
    } else {
      assert a + b == b;
    }
  }

  /**
   * The scanning pass deletes exactly the commas `DropTrailing` deletes:
   * skipping the white space and closer after a deleted comma loses nothing,
   * because none of them is a comma.
   */
  lemma {:induction false} StripTrailingCommasIsDropTrailing(s: string)
    ensures StripTrailingCommas(s) == DropTrailing(s)
    decreases |s|
  {
    if |s| == 0 {
    } else if s[0] == ',' && ClosesAfterSpace(s[1..]) {
      StripTrailingCommasIsDropTrailing(s[SpaceRun(s[1..]) + 2..]);
      DroppedCommaAgrees(s);
    } else {
      StripTrailingCommasIsDropTrailing(s[1..]);
      KeptCharAgrees(s);
    }
  }

  /** The step of the proof above where the leading comma is deleted. */
  lemma DroppedCommaAgrees(s: string)
    requires |s| > 0 && s[0] == ',' && ClosesAfterSpace(s[1..])
    requires var end := SpaceRun(s[1..]) + 2;
      StripTrailingCommas(s[end..]) == DropTrailing(s[end..])
    ensures StripTrailingCommas(s) == DropTrailing(s)
  {
    var t, n := s[1..], SpaceRun(s[1..]) + 1;
    SkippedRunHasNoComma(s);
    assert t[..n] == s[1..n + 1] && t[n..] == s[n + 1..];
    DropTrailingKeepsPrefix(t, n);
    StripTrailingCommasDropStep(s);
    DropTrailingDropStep(s);
  }

  /** A comma-free prefix passes through the reference definition unchanged. */
  lemma DropTrailingKeepsPrefix(t: string, n: nat)
    requires n <= |t| && ',' !in t[..n]
    ensures DropTrailing(t) == t[..n] + DropTrailing(t[n..])
  {
    DropTrailingKeepsCommaFree(t[..n], t[n..]);
    assert t[..n] + t[n..] == t;
  }

  /** At a deleted comma, the pass keeps the skipped white space and closer and resumes after them. */
  lemma StripTrailingCommasDropStep(s: string)
    requires |s| > 0 && s[0] == ',' && ClosesAfterSpace(s[1..])
    ensures var end := SpaceRun(s[1..]) + 2;
      end <= |s| && StripTrailingCommas(s) == s[1..end] + StripTrailingCommas(s[end..])
  {
  }

  /** At a deleted comma, the reference definition drops just that comma. */
  lemma DropTrailingDropStep(s: string)
    requires |s| > 0 && s[0] == ',' && ClosesAfterSpace(s[1..])
    ensures DropTrailing(s) == DropTrailing(s[1..])
  {
  }

  /** The step of the proof above where the first character is kept. */
  lemma KeptCharAgrees(s: string)
    requires |s| > 0 && !(s[0] == ',' && ClosesAfterSpace(s[1..]))
    requires StripTrailingCommas(s[1..]) == DropTrailing(s[1..])
    ensures StripTrailingCommas(s) == DropTrailing(s)
  {
    assert StripTrailingCommas(s) == [s[0]] + StripTrailingCommas(s[1..]);
    assert DropTrailing(s) == [s[0]] + DropTrailing(s[1..]);
  }

  /** The white space and closer that the pass keeps after a deleted comma hold no comma. */
  lemma SkippedRunHasNoComma(s: string)
    requires |s| > 0 && ClosesAfterSpace(s[1..])
    ensures SpaceRun(s[1..]) + 2 <= |s| && ',' !in s[1..SpaceRun(s[1..]) + 2]
  {
    var t := s[1..];
    var k := SpaceRun(t);
    var run := s[1..k + 2];
    forall j | 0 <= j < |run| ensures run[j] != ',' {
      assert run[j] == t[j];
      if j < k {
        assert IsJsSpace(t[j]);
      }
    }
  }

  /** The pass is not idempotent: a run of commas before a closer loses only its last comma. */
  lemma TrailingCommaPassIsSinglePass()
    ensures StripTrailingCommas(",,]") == ",]"
    ensures StripTrailingCommas(StripTrailingCommas(",,]")) == "]"
  {
    assert ClosesAfterSpace(",]"[1..]);
    assert !ClosesAfterSpace(",,]"[1..]);
    assert StripTrailingCommas(",]") == "]" + StripTrailingCommas("");
  }

  /** The four passes of `parseJsonResponse`, in order. */
  function CleanJsonText(content: string): (r: string)
    ensures |r| <= |content|
  {
    StripTrailingCommas(StripComments(StripFences(DropBeforeBrace(content))))
  }

  /**
   * `parseJsonResponse`: the cleaned text goes to `jsonParse` (standing for
   * `JSON.parse`); any failure becomes the single error "Failed to parse LLM
   * response as JSON".
   */
  function ParseJsonResponse<J>(content: string, jsonParse: string -> Option<J>): (r: Result<J>)
    ensures r.Success? <==> jsonParse(CleanJsonText(content)).Some?
    ensures r.Success? ==> r.value == jsonParse(CleanJsonText(content)).value
    ensures r.Failure? ==> r.error == ParseFailure
  {
    match jsonParse(CleanJsonText(content))
    case Some(v) => Success(v)
    case None => Failure(ParseFailure)
  }

  /** The answer of `query`: the parsed reply, or the raw text when `parseJson` is off. */
  datatype Answer<J> = Raw(text: string) | Parsed(value: J)

  function AnswerFor<J>(settings: Settings, content: string, jsonParse: string -> Option<J>): (r: Result<Answer<J>>)
    ensures !settings.parseJson ==> r == Success(Raw(content))
    ensures settings.parseJson ==>
      (r.Success? <==> ParseJsonResponse(content, jsonParse).Success?) &&
      (r.Success? ==> r.value == Parsed(ParseJsonResponse(content, jsonParse).value))
  {
    if !settings.parseJson then Success(Raw(content))
    else match ParseJsonResponse(content, jsonParse)
      case Success(v) => Success(Parsed(v))
      case Failure(e) => Failure(e)
  }

  // ------------------------------------------------------------ format instructions

  /** ` // description` after a property whose schema carries a non-empty description. */
  function DescriptionSuffix(s: Schema): string {
    if s.description.Some? && s.description.value != "" then " // " + s.description.value else ""
  }

  /** The line that closes an object, at the object's own indent. */
  function Closing(indent: nat): string {
    "\n" + Spaces(indent) + "}"
  }

  const ChoicesLabel: string := " (one of: "

  /** ` (one of: a, b)` after a scalar with an `enum`; nothing without one. */
  function ChoicesSuffix(choices: Option<seq<string>>): string {
    match choices
    case Some(cs) => ChoicesLabel + Join(cs, ", ") + ")"
    case None => ""
  }

  function Entry(key: string, body: string, suffix: string, indent: nat): string {
    Spaces(indent) + "    \"" + key + "\": " + body + suffix
  }

  /**
   * `formatSchema(schema, indent)`: an object opens `{`, puts each property on
   * its own line four spaces deeper as `"key": <schema>` plus its description
   * comment, separates them with `,` and closes `}` at the current indent; an
   * array is `[<items>]` (empty items when absent); a scalar is its type name,
   * followed by its choices when it has an `enum`.
   */
  function FormatSchema(s: Schema, indent: nat): string
    decreases s
  {
    match s
    case ObjectSchema(properties, _) =>
      var entries := seq(|properties|, i requires 0 <= i < |properties| =>
        Entry(properties[i].key, FormatSchema(properties[i].value, indent + 4), DescriptionSuffix(properties[i].value), indent));
      "{\n" + Join(entries, ",\n") + Closing(indent)
    case ArraySchema(items, _) =>
      "[" + (match items case Some(it) => FormatSchema(it, indent) case None => "") + "]"
    case ScalarSchema(typeName, choices, _) =>
      typeName + ChoicesSuffix(choices)
  }

  const InstructionsHeader: string :=
    "You MUST return ONLY a JSON object in exactly the following format, with no additional text or explanation:\n\n"

  const InstructionsFooter: string :=
    "\n\nYour response must:\n1. Start with the opening brace {\n2. Contain ONLY the JSON object\n"
    + "3. End with the closing brace }\n4. Include all required fields\n5. Use the exact field names shown\n"
    + "6. Match the types specified\n7. NOT include any explanatory text before or after the JSON"

  function CreateJsonFormatInstructions(schema: Schema): (r: string)
    ensures |r| == |InstructionsHeader| + |FormatSchema(schema, 0)| + |InstructionsFooter|
    ensures StartsWith(r, InstructionsHeader)
    ensures r[|InstructionsHeader|..|r| - |InstructionsFooter|] == FormatSchema(schema, 0)
    ensures r[|r| - |InstructionsFooter|..] == InstructionsFooter
  {
    InstructionsHeader + FormatSchema(schema, 0) + InstructionsFooter
  }

  predicate NoBrackets(t: string) {
    '{' !in t && '}' !in t && '[' !in t && ']' !in t
  }

  /** No key, type name, choice or description of the schema contains a brace or bracket. */
  predicate PlainSchema(s: Schema)
    decreases s
  {
    && (s.description.Some? ==> NoBrackets(s.description.value))
    && match s
      case ObjectSchema(properties, _) =>
        forall i :: 0 <= i < |properties| ==> NoBrackets(properties[i].key) && PlainSchema(properties[i].value)
      case ArraySchema(items, _) => items.Some? ==> PlainSchema(items.value)
      case ScalarSchema(typeName, choices, _) =>
        NoBrackets(typeName) && (choices.Some? ==> forall i :: 0 <= i < |choices.value| ==> NoBrackets(choices.value[i]))
  }

  predicate Balanced(t: string) {
    multiset(t)['{'] == multiset(t)['}'] && multiset(t)['['] == multiset(t)[']']
  }

  lemma {:induction false} JoinBalanced(parts: seq<string>, sep: string)
    requires NoBrackets(sep) && forall i :: 0 <= i < |parts| ==> Balanced(parts[i])
    ensures Balanced(Join(parts, sep))
    decreases |parts|
  {
    if |parts| > 1 {
      JoinBalanced(parts[1..], sep);
    }
  }

  lemma {:induction false} JoinNoBrackets(parts: seq<string>, sep: string)
    requires NoBrackets(sep) && forall i :: 0 <= i < |parts| ==> NoBrackets(parts[i])
    ensures NoBrackets(Join(parts, sep))
    decreases |parts|
  {
    if |parts| > 1 {
      JoinNoBrackets(parts[1..], sep);
    }
  }

  lemma SpacesNoBrackets(n: nat)
    ensures NoBrackets(Spaces(n))
  {
  }

  /** With plain keys and descriptions, every brace and bracket the formatter opens it also closes. */
  lemma BalancedConcat(a: string, b: string)
    requires Balanced(a) && Balanced(b)
    ensures Balanced(a + b)
  {
    assert multiset(a + b) == multiset(a) + multiset(b);
  }

  lemma NoBracketsBalanced(a: string)
    requires NoBrackets(a)
    ensures Balanced(a)
  {
  }

  lemma NoBracketsConcat(a: string, b: string)
    requires NoBrackets(a) && NoBrackets(b)
    ensures NoBrackets(a + b)
  {
  }

  lemma EntryBalanced(key: string, body: string, suffix: string, indent: nat)
    requires NoBrackets(key) && Balanced(body) && NoBrackets(suffix)
    ensures Balanced(Entry(key, body, suffix, indent))
  {
    SpacesNoBrackets(indent);
    NoBracketsConcat(Spaces(indent), "    \"");
    NoBracketsConcat(Spaces(indent) + "    \"", key);
    NoBracketsConcat(Spaces(indent) + "    \"" + key, "\": ");
    NoBracketsBalanced(Spaces(indent) + "    \"" + key + "\": ");
    BalancedConcat(Spaces(indent) + "    \"" + key + "\": ", body);
    NoBracketsBalanced(suffix);
    BalancedConcat(Spaces(indent) + "    \"" + key + "\": " + body, suffix);
  }

  lemma DescriptionSuffixPlain(s: Schema)
    requires s.description.Some? ==> NoBrackets(s.description.value)
    ensures NoBrackets(DescriptionSuffix(s))
  {
  }

  /** One brace pair around balanced text at any indent is balanced. */
  lemma WrapBalanced(open: string, inner: string, close: string)
    requires Balanced(inner)
    requires multiset(open)['{'] == multiset(close)['}'] && multiset(open)['}'] == multiset(close)['{']
    requires multiset(open)['['] == multiset(close)[']'] && multiset(open)[']'] == multiset(close)['[']
    ensures Balanced(open + inner + close)
  {
    assert multiset(open + inner + close) == multiset(open) + multiset(inner) + multiset(close);
  }

  lemma ClosingCounts(indent: nat)
    ensures var close := Closing(indent);
      multiset(close)['}'] == 1 && multiset(close)['{'] == 0 && multiset(close)['['] == 0 && multiset(close)[']'] == 0
  {
    SpacesNoBrackets(indent);
    NoBracketsConcat("\n", Spaces(indent));
    assert multiset(Closing(indent)) == multiset("\n" + Spaces(indent)) + multiset("}");
  }

  /** An object's text is balanced once each property's text is. */
  lemma ObjectFormatBalanced(s: Schema, indent: nat)
    requires s.ObjectSchema? && PlainSchema(s)
    requires forall i :: 0 <= i < |s.properties| ==> Balanced(FormatSchema(s.properties[i].value, indent + 4))
    ensures Balanced(FormatSchema(s, indent))
  {
    var properties := s.properties;
    var entries := seq(|properties|, i requires 0 <= i < |properties| =>
      Entry(properties[i].key, FormatSchema(properties[i].value, indent + 4), DescriptionSuffix(properties[i].value), indent));
    forall i | 0 <= i < |properties| ensures Balanced(entries[i]) {
      DescriptionSuffixPlain(properties[i].value);
      EntryBalanced(properties[i].key, FormatSchema(properties[i].value, indent + 4), DescriptionSuffix(properties[i].value), indent);
    }
    JoinBalanced(entries, ",\n");
    ClosingCounts(indent);
    WrapBalanced("{\n", Join(entries, ",\n"), Closing(indent));
  }

  lemma ChoicesLabelPlain()
    ensures NoBrackets(ChoicesLabel)
  {
    assert forall i :: 0 <= i < |ChoicesLabel| ==>
      ChoicesLabel[i] != '{' && ChoicesLabel[i] != '}' && ChoicesLabel[i] != '[' && ChoicesLabel[i] != ']';
  }

  lemma ChoicesSuffixPlain(choices: Option<seq<string>>)
    requires choices.Some? ==> forall i :: 0 <= i < |choices.value| ==> NoBrackets(choices.value[i])
    ensures NoBrackets(ChoicesSuffix(choices))
  {
    if choices.Some? {
      var cs := choices.value;
      ChoicesLabelPlain();
      JoinNoBrackets(cs, ", ");
      NoBracketsConcat(ChoicesLabel, Join(cs, ", "));
      NoBracketsConcat(ChoicesLabel + Join(cs, ", "), ")");
    }
  }

  lemma ScalarFormatBalanced(s: Schema, indent: nat)
    requires s.ScalarSchema? && PlainSchema(s)
    ensures Balanced(FormatSchema(s, indent))
  {
    ChoicesSuffixPlain(s.choices);
    NoBracketsConcat(s.typeName, ChoicesSuffix(s.choices));
    NoBracketsBalanced(s.typeName + ChoicesSuffix(s.choices));
  }

  /** With plain keys and descriptions, every brace and bracket the formatter opens it also closes. */
  lemma {:induction false} FormatSchemaBalanced(s: Schema, indent: nat)
    requires PlainSchema(s)
    ensures Balanced(FormatSchema(s, indent))
    decreases s
  {
    match s
    case ObjectSchema(properties, _) =>
      forall i | 0 <= i < |properties| ensures Balanced(FormatSchema(properties[i].value, indent + 4)) {
        FormatSchemaBalanced(properties[i].value, indent + 4);
      }
      ObjectFormatBalanced(s, indent);
    case ArraySchema(items, _) =>
      var inner := match items case Some(it) => FormatSchema(it, indent) case None => "";
      if items.Some? {
        FormatSchemaBalanced(items.value, indent);
      }
      WrapBalanced("[", inner, "]");
    case ScalarSchema(_, _, _) =>
      ScalarFormatBalanced(s, indent);
  }
}
