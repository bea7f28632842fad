/** The `/internetlore` command's rendering (src/commands/lore.ts): how one lore post
    becomes an embed. Where the post comes from is not part of this model. */
module Lore {
  import opened JsText

  /** A lore post: its title and link, the subreddit and author it came from, its score,
      and optional body text and image. */
  datatype Post = Post(
    title: string,
    url: string,
    subreddit: string,
    author: string,
    score: int,
    text: Option<string>,
    imageUrl: Option<string>)

  datatype Embed = Embed(
    title: string,
    url: string,
    description: Option<string>,
    image: Option<string>,
    footer: string)

  /** The reply: the "no lore" line, or the embed. */
  datatype Reply = NoLore | Shown(embed: Embed)

  const NoLoreText := "No lore available right now. Try again in a moment!"
  const MaxTitle := 256
  const MaxDescription := 4096

  /** `r/<subreddit> • u/<author> • 👍 <score>`. */
  function LoreFooter(p: Post): (f: string)
  {
    "r/" + p.subreddit + " \U{2022} u/" + p.author + " \U{2022} \U{1F44D} " + IntToDecimal(p.score)
  }

  /** `handleLore` once the post has been taken (or not). */
  function HandleLore(post: Option<Post>): (r: Reply)
    ensures r.NoLore? <==> post.None?
    ensures r.Shown? ==>
              r.embed.url == post.value.url
              && r.embed.footer == LoreFooter(post.value)
              && r.embed.title == Ellipsize(post.value.title, MaxTitle, MaxTitle - 3)
              && (r.embed.description.Some? <==> Truthy(post.value.text))
              && (r.embed.description.Some? ==>
                    r.embed.description.value == Ellipsize(post.value.text.value, MaxDescription, MaxDescription - 3))
              && r.embed.image == (if Truthy(post.value.imageUrl) then post.value.imageUrl else None)
  {
    match post
    case None => NoLore
    case Some(p) =>
      Shown(Embed(
        Ellipsize(p.title, MaxTitle, MaxTitle - 3),
        p.url,
        if Truthy(p.text) then Some(Ellipsize(p.text.value, MaxDescription, MaxDescription - 3)) else None,
        if Truthy(p.imageUrl) then p.imageUrl else None,
        LoreFooter(p)))
  }

  /** A shown title fits Discord's 256-character limit, is the post's title when that
      fits, and otherwise is its first 253 characters followed by "...". */
  lemma TitleFits(p: Post)
    ensures var t := HandleLore(Some(p)).embed.title;
            |t| <= MaxTitle
            && (|p.title| <= MaxTitle <==> t == p.title)
            && (|p.title| > MaxTitle ==> |t| == MaxTitle && t[..MaxTitle - 3] == p.title[..MaxTitle - 3]
                                         && t[MaxTitle - 3..] == "...")
  {
    var t := HandleLore(Some(p)).embed.title;
    if |p.title| > MaxTitle {
      assert |t| == MaxTitle != |p.title|;
    }
  }

  /** A shown description is never empty, fits the 4096-character limit, and is the
      post's whole text when that fits. */
  lemma DescriptionFits(p: Post)
    requires HandleLore(Some(p)).embed.description.Some?
    ensures var d := HandleLore(Some(p)).embed.description.value;
            d != "" && |d| <= MaxDescription
            && (|p.text.value| <= MaxDescription ==> d == p.text.value)
            && (|p.text.value| > MaxDescription ==> d[..MaxDescription - 3] == p.text.value[..MaxDescription - 3])
  {
  }

  /** The footer names the subreddit, then the author, then the score. */
  lemma FooterNamesSource(p: Post)
    ensures var f := LoreFooter(p);
            f[..2 + |p.subreddit|] == "r/" + p.subreddit
            && f[2 + |p.subreddit|..5 + |p.subreddit| + 2 + |p.author|] == " \U{2022} u/" + p.author
            && f[|f| - |IntToDecimal(p.score)|..] == IntToDecimal(p.score)
  {
  }
}
