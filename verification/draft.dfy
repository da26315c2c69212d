/** The single-file draft of the pipeline (main.py): `generate_code` writes a
    two-line provenance header and then the streamed code chunks into the
    artifact, and `script` runs the same cache-or-generate session as the
    agent, with the artifact folder fixed to `./scrapers`. */
module Draft {
  import opened Wrappers
  import opened Text
  import opened Cache
  import Agent

  const UrlLabel: string := "# Site URL: "
  const PromptLabel: string := "# Prompt: "

  /** The provenance header `generate_code` writes first. */
  function Header(url: string, prompt: string): string {
    UrlLabel + url + "\n" + PromptLabel + prompt + "\n"
  }

  /** The total number of characters in the chunks. */
  function TotalLength(chunks: seq<string>): nat {
    if |chunks| == 0 then 0 else |chunks[0]| + TotalLength(chunks[1..])
  }

  /** The streamed chunk texts joined in stream order: nothing is lost or
      added, so the text is as long as the chunks together. */
  function Concat(chunks: seq<string>): (text: string)
    ensures |text| == TotalLength(chunks)
  {
    if |chunks| == 0 then "" else chunks[0] + Concat(chunks[1..])
  }

  /** Appending one more chunk to the stream appends its text. */
  lemma {:induction false} ConcatAppend(chunks: seq<string>, chunk: string)
    ensures Concat(chunks + [chunk]) == Concat(chunks) + chunk
    decreases |chunks|
  {
    if |chunks| == 0 {
      assert chunks + [chunk] == [chunk];
    } else {
      assert (chunks + [chunk])[1..] == chunks[1..] + [chunk];
      ConcatAppend(chunks[1..], chunk);
    }
  }

  /** The text of the artifact a completed stream leaves. */
  function ArtifactContent(url: string, prompt: string, chunks: seq<string>): string {
    Header(url, prompt) + Concat(chunks)
  }

  /** `generate_code`: the file is opened in "w" mode, so whatever was stored
      at `path` is discarded; the header is written, then each chunk in the
      order the stream delivers it. Nothing else in the store changes. */
  method GenerateCode(store: map<string, string>, path: string, url: string, prompt: string, chunks: seq<string>)
    returns (written: map<string, string>)
    ensures written.Keys == store.Keys + {path}
    ensures forall k :: k in store && k != path ==> written[k] == store[k]
    ensures written[path] == ArtifactContent(url, prompt, chunks)
  {
    var content := Header(url, prompt);
    var i := 0;
    while i < |chunks|
      invariant 0 <= i <= |chunks|
      invariant content == Header(url, prompt) + Concat(chunks[..i])
    {
      ConcatAppend(chunks[..i], chunks[i]);
      assert chunks[..i + 1] == chunks[..i] + [chunks[i]];
      content := content + chunks[i];
      i := i + 1;
    }
    assert chunks[..i] == chunks;
    written := store[path := content];
  }

  /** The request an artifact records in its header, and the code after it. */
  datatype Provenance = Provenance(url: string, prompt: string, code: string)

  /** Reads the provenance header back: the URL line, the prompt line and
      the remaining text. */
  function ParseArtifact(artifact: string): (r: Option<Provenance>)
    ensures r.Some? ==>
      && '\n' !in r.value.url && '\n' !in r.value.prompt
      && artifact == Header(r.value.url, r.value.prompt) + r.value.code
  {
    match StripPrefix(artifact, UrlLabel)
    case None => None
    case Some(afterUrlLabel) =>
      match SplitLine(afterUrlLabel)
      case None => None
      case Some((url, second)) =>
        match StripPrefix(second, PromptLabel)
        case None => None
        case Some(afterPromptLabel) =>
          match SplitLine(afterPromptLabel)
          case None => None
          case Some((prompt, code)) =>
            HeaderShape(url, prompt, code);
            Some(Provenance(url, prompt, code))
  }

  /** The header followed by the code, grouped the way the parser reads it. */
  lemma HeaderShape(url: string, prompt: string, code: string)
    ensures Header(url, prompt) + code == UrlLabel + (url + "\n" + (PromptLabel + (prompt + "\n" + code)))
  {
  }

  /** When neither field contains a newline, the header reads back exactly:
      the artifact records the request that produced it. */
  lemma ParseArtifactRoundTrip(url: string, prompt: string, chunks: seq<string>)
    requires '\n' !in url && '\n' !in prompt
    ensures ParseArtifact(ArtifactContent(url, prompt, chunks)) == Some(Provenance(url, prompt, Concat(chunks)))
  {
    var code := Concat(chunks);
    var afterPromptLabel := prompt + "\n" + code;
    var second := PromptLabel + afterPromptLabel;
    var afterUrlLabel := url + "\n" + second;
    HeaderShape(url, prompt, code);
    StripPrefixOf(UrlLabel, afterUrlLabel);
    SplitLineOf(url, second);
    StripPrefixOf(PromptLabel, afterPromptLabel);
    SplitLineOf(prompt, code);
  }

  lemma LabelsHaveNoNewline()
    ensures '\n' !in UrlLabel && '\n' !in PromptLabel
  {
  }

  /** The header has one line per field plus the newlines the fields carry:
      with newline-free fields it holds exactly two newlines. */
  lemma HeaderNewlines(url: string, prompt: string)
    ensures CountChar(Header(url, prompt), '\n') == 2 + CountChar(url, '\n') + CountChar(prompt, '\n')
  {
    LabelsHaveNoNewline();
    var a, b, nl := UrlLabel, PromptLabel, "\n";
    assert CountChar(a, '\n') == 0 && CountChar(b, '\n') == 0 && CountChar(nl, '\n') == 1;
    CountCharConcat(a, url, '\n');
    CountCharConcat(a + url, nl, '\n');
    CountCharConcat(a + url + nl, b, '\n');
    CountCharConcat(a + url + nl + b, prompt, '\n');
    CountCharConcat(a + url + nl + b + prompt, nl, '\n');
    assert Header(url, prompt) == a + url + nl + b + prompt + nl;
  }

  /** With a newline-free URL the header splits into the URL line and the
      prompt line, and both lines start with `#`. */
  lemma HeaderLines(url: string, prompt: string)
    requires '\n' !in url
    ensures SplitLine(Header(url, prompt)) == Some((UrlLabel + url, PromptLabel + prompt + "\n"))
    ensures (UrlLabel + url)[0] == '#' && (PromptLabel + prompt)[0] == '#'
  {
    LabelsHaveNoNewline();
    var first := UrlLabel + url;
    assert '\n' !in first;
    assert Header(url, prompt) == first + "\n" + (PromptLabel + prompt + "\n");
    SplitLineOf(first, PromptLabel + prompt + "\n");
  }

  /** `Path(f'./scrapers/{hash}.py')`: the draft spells the whole artifact
      path in one format string instead of joining a folder and a file name. */
  function ScriptPath(key: string): string {
    "./scrapers/" + key + ".py"
  }

  /** One run of `script()`: the artifact path is `./scrapers/<key>.py` with
      the agent's key; `streams(i)` are the chunks the `i`-th generation call
      receives. */
  method Script(store: map<string, string>, hash: Hash, url: string, prompt: string,
                streams: nat -> seq<string>, replies: seq<string>)
    returns (s: Session)
    ensures var path := ScriptPath(Key(hash, url, prompt));
      && s.store.Keys == store.Keys + {path}
      && (forall k :: k in store && k != path ==> s.store[k] == store[k])
      && (path in store ==> s.ending == Hit && s.generations == 0 && s.store == store && s.executed == [store[path]])
      && (path !in store ==>
            && s.generations == 1 + LeadingYes(replies)
            && (s.ending == Declined <==> LeadingYes(replies) < |replies|)
            && (s.ending == InputExhausted <==> LeadingYes(replies) == |replies|)
            && s.store[path] == ArtifactContent(url, prompt, streams(s.generations - 1))
            && |s.executed| == s.generations
            && (forall i :: 0 <= i < |s.executed| ==> s.executed[i] == ArtifactContent(url, prompt, streams(i))))
  {
    var path := ScriptPath(Key(hash, url, prompt));
    s := RunSession(store, path, (i: nat) => ArtifactContent(url, prompt, streams(i)), replies);
  }

  /** The draft's one-string path and the agent's folder-joined path name the
      same file for every key: the draft and an agent with the default folder
      share their artifacts. */
  lemma SameArtifactAsAgent(key: string)
    ensures ScriptPath(key) == ArtifactPath(Agent.DefaultFolder, key)
  {
  }

  /** The artifact file is truncated before the stream starts, so a stream
      that fails after `received` chunks leaves the header and those chunks
      on disk; the next `script()` for the same request finds the file,
      runs that partial artifact and generates nothing. */
  method RerunAfterInterruptedStream(store: map<string, string>, hash: Hash, url: string, prompt: string,
                                     chunks: seq<string>, received: nat,
                                     streams: nat -> seq<string>, replies: seq<string>)
    returns (s: Session)
    requires received <= |chunks|
    ensures s.ending == Hit && s.generations == 0
    ensures s.executed == [Header(url, prompt) + Concat(chunks[..received])]
  {
    var path := ScriptPath(Key(hash, url, prompt));
    var partial := GenerateCode(store, path, url, prompt, chunks[..received]);
    s := Script(partial, hash, url, prompt, streams, replies);
  }
}
