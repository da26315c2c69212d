/** `Scrapy.scrapy` (app/agents/scrapy.py): the cache-or-generate session
    of the agent, over an abstract routine store. */
module Agent {
  import opened Cache

  /** The folder a `Scrapy` agent stores its artifacts in unless told otherwise. */
  const DefaultFolder: string := "./scrapers"

  /** One call of `scrapy(url, prompt)`. `generate(i)` is the artifact the
      `i`-th `generate_and_validate` call leaves at the path it is given;
      `replies` are the answers `input()` returns, in order. */
  method Scrapy(store: map<string, string>, hash: Hash, folder: string, url: string, prompt: string,
                generate: nat -> string, replies: seq<string>)
    returns (s: Session)
    ensures var path := PathFor(hash, folder, url, prompt);
      && s.store.Keys == store.Keys + {path}
      && (forall k :: k in store && k != path ==> s.store[k] == store[k])
      && (path in store ==> s.ending == Hit && s.generations == 0 && s.store == store && s.executed == [store[path]])
      && (path !in store ==>
            && s.generations == 1 + LeadingYes(replies)
            && (s.ending == Declined <==> LeadingYes(replies) < |replies|)
            && (s.ending == InputExhausted <==> LeadingYes(replies) == |replies|)
            && s.store[path] == generate(s.generations - 1)
            && |s.executed| == s.generations
            && (forall i :: 0 <= i < |s.executed| ==> s.executed[i] == generate(i)))
  {
    var path := PathFor(hash, folder, url, prompt);
    s := RunSession(store, path, generate, replies);
  }
}
