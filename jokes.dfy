/** The joke and dad-joke queues (src/utils/jokeFetcher.ts). Both live in one Redis
    connection under the distinct keys `jokes:queue` and `dadjokes:queue`, modelled as
    two distinct `Pool` objects of one `JokeStore`. */
module Jokes {
  import opened JsText
  import opened ContentCache

  /** A JokeAPI joke; `jokeType` is its `type` field ("twopart" or "single"). Any field
      may be missing from the JSON. */
  datatype Joke = Joke(
    jokeType: Option<string>,
    setup: Option<string>,
    delivery: Option<string>,
    joke: Option<string>,
    category: Option<string>)

  /** What is stored for a dad joke: its text and its id. */
  datatype DadJoke = DadJoke(joke: string, id: Option<string>)

  /** The one JokeAPI request: failed, or a body whose `jokes` array may be missing. */
  datatype JokeResponse = RequestFailed | Body(jokes: Option<seq<Option<Joke>>>)

  /** One icanhazdadjoke request: failed (throws), or a body with its `joke` and `id`. */
  datatype DadResponse = DadFailed | DadBody(joke: Option<string>, id: Option<string>)

  const BatchSize := 30
  const LowThreshold := 3

  /** The filter of `fetchJokesFromAPI`: `setup` or `joke` is truthy. */
  predicate HasSetupOrJoke(j: Joke)
  {
    Truthy(j.setup) || Truthy(j.joke)
  }

  /** `fetchJokesFromAPI`: the jokes with a setup or a text, in order; a failed request
      gives none. */
  function FetchJokesFromApi(response: JokeResponse): (jokes: seq<Joke>)
    ensures response.RequestFailed? || response.jokes.None? ==> jokes == []
    ensures forall i :: 0 <= i < |jokes| ==> HasSetupOrJoke(jokes[i])
    ensures response.Body? && response.jokes.Some? ==>
              forall j :: j in jokes <==> Some(j) in response.jokes.value && HasSetupOrJoke(j)
  {
    match response
    case RequestFailed => []
    case Body(None) => []
    case Body(Some(entries)) => Keep(entries, HasSetupOrJoke)
  }

  /** The dad joke a successful request offers: the body's `joke` and `id`, when it has
      a `joke` field. */
  function Candidate(r: DadResponse): (c: Option<DadJoke>)
    ensures c.Some? <==> r.DadBody? && r.joke.Some?
    ensures c.Some? ==> r == DadBody(Some(c.value.joke), c.value.id)
  {
    if r.DadBody? && r.joke.Some? then Some(DadJoke(r.joke.value, r.id)) else None
  }

  /** The dad jokes offered by a run of requests, one slot per request. */
  function Candidates(rs: seq<DadResponse>): (cs: seq<Option<DadJoke>>)
    ensures |cs| == |rs|
    ensures forall i :: 0 <= i < |rs| ==> cs[i] == Candidate(rs[i])
  {
    seq(|rs|, i requires 0 <= i < |rs| => Candidate(rs[i]))
  }

  /** `data?.joke` is truthy. */
  predicate HasText(d: DadJoke)
  {
    d.joke != ""
  }

  /** The dad jokes kept from a run of successful requests: one per body with a truthy
      `joke`, in request order. */
  function KeptDadJokes(rs: seq<DadResponse>): (js: seq<DadJoke>)
    ensures |js| <= |rs|
    ensures forall i :: 0 <= i < |js| ==> js[i].joke != ""
    ensures forall j :: j in js <==> j.joke != "" && DadBody(Some(j.joke), j.id) in rs
  {
    var cs := Candidates(rs);
    assert forall j :: Some(j) in cs <==> DadBody(Some(j.joke), j.id) in rs by {
      forall j
        ensures Some(j) in cs <==> DadBody(Some(j.joke), j.id) in rs
      {
        if DadBody(Some(j.joke), j.id) in rs {
          var i :| 0 <= i < |rs| && rs[i] == DadBody(Some(j.joke), j.id);
          assert cs[i] == Some(j);
        }
      }
    }
    Keep(cs, HasText)
  }

  /** The jokes kept from two runs of requests are those of the first run followed by
      those of the second: the kept jokes keep request order. */
  lemma KeptDadJokesAppend(a: seq<DadResponse>, b: seq<DadResponse>)
    ensures KeptDadJokes(a + b) == KeptDadJokes(a) + KeptDadJokes(b)
  {
    assert Candidates(a + b) == Candidates(a) + Candidates(b);
    KeepAppend(Candidates(a), Candidates(b), HasText);
  }

  /** One request keeps its joke exactly when its body's `joke` is truthy. */
  lemma KeptDadJokesSingle(r: DadResponse)
    ensures KeptDadJokes([r]) == if r.DadBody? && Truthy(r.joke) then [DadJoke(r.joke.value, r.id)] else []
  {
    assert Candidates([r]) == [Candidate(r)];
    assert Candidates([r])[1..] == [];
  }

  /** Some request in `rs` failed. */
  predicate AnyFailed(rs: seq<DadResponse>)
  {
    exists i :: 0 <= i < |rs| && rs[i].DadFailed?
  }

  /** `fetchDadJokesFromAPI`: `count` requests one after another (`responses[i]` is the
      outcome of the i-th); the kept jokes, or none at all when any request failed, since
      the error leaves the loop and discards the partial batch. */
  method FetchDadJokesFromApi(count: nat, responses: seq<DadResponse>) returns (jokes: seq<DadJoke>)
    requires count <= |responses|
    ensures AnyFailed(responses[..count]) ==> jokes == []
    ensures !AnyFailed(responses[..count]) ==> jokes == KeptDadJokes(responses[..count])
  {
    jokes := [];
    var i := 0;
    while i < count
      invariant 0 <= i <= count
      invariant !AnyFailed(responses[..i])
      invariant jokes == KeptDadJokes(responses[..i])
    {
      var response := responses[i];
      assert responses[..i + 1] == responses[..i] + [response];
      KeptDadJokesAppend(responses[..i], [response]);
      KeptDadJokesSingle(response);
      if response.DadFailed? {
        assert responses[..count][i].DadFailed?;
        return [];
      }
      if Truthy(response.joke) {
        jokes := jokes + [DadJoke(response.joke.value, response.id)];
      }
      i := i + 1;
    }
    assert responses[..i] == responses[..count];
  }

  /** The Redis state of src/utils/jokeFetcher.ts. */
  class JokeStore {
    /** `jokes:queue`. */
    const jokes: Pool<Joke>
    /** `dadjokes:queue`. */
    const dadJokes: Pool<DadJoke>

    /** Every stored joke passed its filter, every stored dad joke has text, and the two
        queues are separate lists. */
    ghost predicate Valid()
      reads this, jokes, dadJokes
    {
      && jokes as object != dadJokes as object
      && jokes.lowWatermark == LowThreshold && dadJokes.lowWatermark == LowThreshold
      && AllStored(jokes.entries, HasSetupOrJoke)
      && AllStored(dadJokes.entries, (d: DadJoke) => d.joke != "")
    }

    constructor ()
      ensures Valid() && fresh(jokes) && fresh(dadJokes)
      ensures jokes.entries == [] && dadJokes.entries == []
    {
      jokes := new Pool(LowThreshold, []);
      dadJokes := new Pool(LowThreshold, []);
    }

    /** `fillJokesCache`: the kept jokes go to the tail of the joke queue in order and
        their number is returned; the dad-joke queue is not touched. */
    method FillJokesCache(response: JokeResponse) returns (added: nat)
      requires Valid()
      modifies jokes
      ensures Valid()
      ensures added == |FetchJokesFromApi(response)|
      ensures jokes.entries == old(jokes.entries) + Encode(FetchJokesFromApi(response))
      ensures dadJokes.entries == old(dadJokes.entries)
    {
      added := jokes.Fill(FetchJokesFromApi(response));
    }

    /** `fillDadJokesCache`: the fetched dad jokes go to the tail of the dad-joke queue in
        order and their number is returned; the joke queue is not touched. */
    method FillDadJokesCache(count: nat, responses: seq<DadResponse>) returns (added: nat)
      requires Valid()
      requires count <= |responses|
      modifies dadJokes
      ensures Valid()
      ensures AnyFailed(responses[..count]) ==> added == 0 && dadJokes.entries == old(dadJokes.entries)
      ensures !AnyFailed(responses[..count]) ==>
                added == |KeptDadJokes(responses[..count])|
                && dadJokes.entries == old(dadJokes.entries) + Encode(KeptDadJokes(responses[..count]))
      ensures jokes.entries == old(jokes.entries)
    {
      var fetched := FetchDadJokesFromApi(count, responses);
      added := dadJokes.Fill(fetched);
    }

    /** `popJoke`: the head of the joke queue, with one synchronous fill on an empty
        queue and a background refill when fewer than three jokes remain. */
    method PopJoke(refetch: JokeResponse) returns (joke: Option<Joke>, refilled: bool, backgroundRefill: bool)
      requires Valid()
      modifies jokes
      ensures Valid()
      ensures refilled <==> Falsy(Head(old(jokes.entries)))
      ensures !refilled ==>
                jokes.entries == Rest(old(jokes.entries)) && joke == Parse(old(jokes.entries)[0])
                && backgroundRefill == (|jokes.entries| < LowThreshold)
      ensures refilled ==>
                var filled := Rest(old(jokes.entries)) + Encode(FetchJokesFromApi(refetch));
                jokes.entries == Rest(filled)
                && (Falsy(Head(filled)) ==> joke.None? && !backgroundRefill)
                && (!Falsy(Head(filled)) ==>
                      joke == Parse(filled[0]) && backgroundRefill == (|jokes.entries| < LowThreshold))
      ensures joke.Some? ==> HasSetupOrJoke(joke.value)
      ensures dadJokes.entries == old(dadJokes.entries)
    {
      ghost var before := jokes.entries;
      var fetched := FetchJokesFromApi(refetch);
      joke, refilled, backgroundRefill := jokes.Pop(fetched);
      if refilled {
        AllStoredRefill(before, fetched, HasSetupOrJoke);
      } else {
        AllStoredRest(before, HasSetupOrJoke);
      }
    }

    /** `popDadJoke`: the same discipline on the dad-joke queue; the one synchronous fill
        makes `BatchSize` requests, whose outcomes are the first of `responses`. */
    method PopDadJoke(responses: seq<DadResponse>) returns (joke: Option<DadJoke>, refilled: bool, backgroundRefill: bool)
      requires Valid()
      requires BatchSize <= |responses|
      modifies dadJokes
      ensures Valid()
      ensures refilled <==> Falsy(Head(old(dadJokes.entries)))
      ensures !refilled ==>
                dadJokes.entries == Rest(old(dadJokes.entries)) && joke == Parse(old(dadJokes.entries)[0])
                && backgroundRefill == (|dadJokes.entries| < LowThreshold)
      ensures refilled ==>
                var fetched := if AnyFailed(responses[..BatchSize]) then [] else KeptDadJokes(responses[..BatchSize]);
                var filled := Rest(old(dadJokes.entries)) + Encode(fetched);
                dadJokes.entries == Rest(filled)
                && (Falsy(Head(filled)) ==> joke.None? && !backgroundRefill)
                && (!Falsy(Head(filled)) ==>
                      joke == Parse(filled[0]) && backgroundRefill == (|dadJokes.entries| < LowThreshold))
      ensures joke.Some? ==> joke.value.joke != ""
      ensures jokes.entries == old(jokes.entries)
    {
      ghost var before := dadJokes.entries;
      var fetched := FetchDadJokesFromApi(BatchSize, responses);
      joke, refilled, backgroundRefill := dadJokes.Pop(fetched);
      if refilled {
        AllStoredRefill(before, fetched, (d: DadJoke) => d.joke != "");
      } else {
        AllStoredRest(before, (d: DadJoke) => d.joke != "");
      }
    }
  }
}
