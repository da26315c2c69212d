/** The content-addressed routine store shared by the agent
    (app/agents/scrapy.py) and the script draft (main.py).

    A request `(url, prompt)` is keyed by the hex digest of `url + prompt`
    and its artifact lives at `<folder>/<key>.py`. A session either finds
    the artifact and runs it, or generates it, runs it and asks whether to
    generate again, as long as the reply upper-cases to "Y". */
module Cache {
  import opened Text

  /** The hex-digest function (`hashlib.sha256(...).hexdigest()`). It is a
      parameter: every property below holds whatever function stands here,
      except where a lemma requires it to be collision-free (`Injective`). */
  type Hash = string -> string

  /** `__generate_hash` / `generate_hash`: the digest of the plain
      concatenation, with no separator. */
  function Key(hash: Hash, url: string, prompt: string): string {
    hash(url + prompt)
  }

  /** `folder / f'{hash}.py'`: the file sits directly in the folder, and
      the key can be read back from between the separator and the suffix. */
  function ArtifactPath(folder: string, key: string): (p: string)
    ensures StartsWith(p, folder + "/")
    ensures |p| == |folder| + 1 + |key| + 3 && p[|p| - 3..] == ".py"
    ensures p[|folder| + 1..|p| - 3] == key
  {
    folder + "/" + key + ".py"
  }

  function PathFor(hash: Hash, folder: string, url: string, prompt: string): string {
    ArtifactPath(folder, Key(hash, url, prompt))
  }

  /** Within one folder, distinct keys name distinct files. */
  lemma ArtifactPathInjective(folder: string, key1: string, key2: string)
    ensures ArtifactPath(folder, key1) == ArtifactPath(folder, key2) <==> key1 == key2
  {
  }

  /** The path depends on the two fields only through their concatenation. */
  lemma PathDependsOnConcatenation(hash: Hash, folder: string, url1: string, prompt1: string, url2: string, prompt2: string)
    requires url1 + prompt1 == url2 + prompt2
    ensures PathFor(hash, folder, url1, prompt1) == PathFor(hash, folder, url2, prompt2)
  {
  }

  /** With no separator, `("ab", "c")` and `("a", "bc")` share one artifact. */
  lemma SeparatorlessKeysCollide(hash: Hash, folder: string)
    ensures PathFor(hash, folder, "ab", "c") == PathFor(hash, folder, "a", "bc")
  {
    assert "ab" + "c" == "a" + "bc";
  }

  ghost predicate Injective(hash: Hash) {
    forall a, b :: hash(a) == hash(b) ==> a == b
  }

  /** For a collision-free digest, requests share an artifact exactly when
      their concatenations are equal. */
  lemma SharedArtifactIffSameConcatenation(hash: Hash, folder: string, url1: string, prompt1: string, url2: string, prompt2: string)
    requires Injective(hash)
    ensures PathFor(hash, folder, url1, prompt1) == PathFor(hash, folder, url2, prompt2) <==> url1 + prompt1 == url2 + prompt2
  {
    ArtifactPathInjective(folder, Key(hash, url1, prompt1), Key(hash, url2, prompt2));
  }

  /** The loop condition: the reply to "create another script?" upper-cases
      to "Y". Only "y" and "Y" do; the reply is not trimmed. */
  function IsYes(reply: string): (b: bool)
    ensures b <==> reply == "y" || reply == "Y"
  {
    Upper(reply) == "Y"
  }

  /** How many replies, from the first, continue the loop. */
  function LeadingYes(replies: seq<string>): (n: nat)
    ensures n <= |replies|
    ensures forall j :: 0 <= j < n ==> IsYes(replies[j])
    ensures n < |replies| ==> !IsYes(replies[n])
  {
    if |replies| == 0 || !IsYes(replies[0]) then 0
    else 1 + LeadingYes(replies[1..])
  }

  /** How a session ended: the artifact was already stored, a reply other
      than "Y" stopped the loop, or `input()` had no reply left to read. */
  datatype Ending = Hit | Declined | InputExhausted

  /** What a session leaves behind: the store, how many times the generator
      was called, the artifact texts it loaded and ran, in order, and how it
      ended. */
  datatype Session = Session(store: map<string, string>, generations: nat, executed: seq<string>, ending: Ending)

  /** The hit/miss flow of `Scrapy.scrapy` and of `script`. `produce(i)` is
      the artifact the `i`-th generation call writes at `path`. */
  method RunSession(store: map<string, string>, path: string, produce: nat -> string, replies: seq<string>)
    returns (s: Session)
    ensures s.store.Keys == store.Keys + {path}
    ensures forall k :: k in store && k != path ==> s.store[k] == store[k]
    ensures path in store ==> s.ending == Hit && s.generations == 0 && s.store == store && s.executed == [store[path]]
    ensures path !in store ==>
      && s.generations == 1 + LeadingYes(replies)
      && (s.ending == Declined <==> LeadingYes(replies) < |replies|)
      && (s.ending == InputExhausted <==> LeadingYes(replies) == |replies|)
      && s.store[path] == produce(s.generations - 1)
      && |s.executed| == s.generations
      && (forall i :: 0 <= i < |s.executed| ==> s.executed[i] == produce(i))
  {
    if path in store {
      s := Session(store, 0, [store[path]], Hit);
    } else {
      var current := store;
      var calls: nat := 0;
      var executed: seq<string> := [];
      var tryAgain := "Y";
      var read := 0;
      var ending := Declined;
      while tryAgain == "Y"
        invariant read <= |replies|
        invariant calls == read
        invariant forall j :: 0 <= j < read - 1 ==> IsYes(replies[j])
        invariant read == 0 ==> tryAgain == "Y"
        invariant read > 0 ==> tryAgain == Upper(replies[read - 1])
        invariant |executed| == calls
        invariant forall i :: 0 <= i < calls ==> executed[i] == produce(i)
        invariant calls == 0 ==> current == store
        invariant calls > 0 ==> current == store[path := produce(calls - 1)]
        decreases |replies| - read
      {
        current := current[path := produce(calls)];
        executed := executed + [current[path]];
        calls := calls + 1;
        if read == |replies| {
          ending := InputExhausted;
          break;
        }
        tryAgain := Upper(replies[read]);
        read := read + 1;
      }
      s := Session(current, calls, executed, ending);
    }
  }
}
