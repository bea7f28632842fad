/** The `/joke` command's rendering (src/commands/joke.ts): how one cached JokeAPI joke
    becomes an embed. */
module JokeCommand {
  import opened JsText
  import opened Jokes

  datatype Embed = Embed(title: string, description: string, footer: string)

  /** The reply: the "no jokes" line, or the embed. */
  datatype Reply = NoJoke | Shown(embed: Embed)

  const NoJokeText := "No jokes available right now. Try again in a moment!"
  const JokeTitle := "~ Joke"
  const RandomFooter := "Random Joke"

  /** A two-part joke: bold setup, then the delivery behind a spoiler. */
  function TwoPartText(j: Joke): (d: string)
  {
    "**" + Show(j.setup) + "**\n\n||" + Show(j.delivery) + "||"
  }

  /** The footer: the category when there is one, else "Random Joke". */
  function CategoryFooter(j: Joke): (f: string)
    ensures Truthy(j.category) ==> f == "Category: " + j.category.value
    ensures !Truthy(j.category) ==> f == RandomFooter
  {
    if Truthy(j.category) then "Category: " + j.category.value else RandomFooter
  }

  /** `handleJoke` once the joke has been popped (or not). */
  function HandleJoke(joke: Option<Joke>): (r: Reply)
    ensures r.NoJoke? <==> joke.None?
    ensures r.Shown? ==> r.embed.title == JokeTitle && r.embed.footer == CategoryFooter(joke.value)
    ensures r.Shown? && joke.value.jokeType == Some("twopart") ==> r.embed.description == TwoPartText(joke.value)
    ensures r.Shown? && joke.value.jokeType != Some("twopart") ==>
              r.embed.description == OrElse(joke.value.joke, Some("")).value
  {
    match joke
    case None => NoJoke
    case Some(j) =>
      var description := if j.jokeType == Some("twopart") then TwoPartText(j) else OrElse(j.joke, Some("")).value;
      Shown(Embed(JokeTitle, description, CategoryFooter(j)))
  }

  /** The description is empty exactly for a joke that is not two-part and has no
      `joke` text. `HasSetupOrJoke` lets such a joke into the cache when it has a setup. */
  lemma EmptyDescriptionIff(j: Joke)
    ensures HandleJoke(Some(j)).embed.description == ""
            <==> j.jokeType != Some("twopart") && !Truthy(j.joke)
  {
    if j.jokeType == Some("twopart") {
      assert TwoPartText(j)[0] == '*';
    }
  }

  /** A two-part joke shows its setup between the opening bold markers and its delivery
      at the end, inside the spoiler markers. */
  lemma TwoPartShowsBoth(j: Joke)
    requires j.jokeType == Some("twopart") && j.setup.Some? && j.delivery.Some?
    ensures var d := HandleJoke(Some(j)).embed.description;
            d[..2] == "**" && d[2..2 + |j.setup.value|] == j.setup.value
            && d[|d| - 2 - |j.delivery.value|..|d| - 2] == j.delivery.value && d[|d| - 2..] == "||"
  {
  }
}
