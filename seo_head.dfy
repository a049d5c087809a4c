/** `SeoHead`: the effect that writes the page title, the meta tags, the canonical link and the JSON-LD blocks into the document head. */
module SeoHead {
  import opened Wrappers
  import opened Text

  const HeadBaseUrl := "https://pool-zen.vercel.app"

  // ---------------------------------------------------------------- properties

  /** One JSON-LD object or an array of them; each is kept as the text `JSON.stringify` gives it. */
  datatype StructuredData = One(json: string) | Many(items: seq<string>)

  datatype Props = Props(
    title: string, description: string, keywords: Option<string>, canonical: Option<string>,
    ogTitle: Option<string>, ogDescription: Option<string>, ogImage: Option<string>, ogType: Option<string>,
    noindex: Option<bool>, structuredData: Option<StructuredData>)

  /** A string property is acted on only when present and non-empty (JavaScript truthiness). */
  predicate Truthy(o: Option<string>) { o.Some? && o.value != "" }

  /** `a || b` on an optional string. */
  function Or(a: Option<string>, b: string): string { if Truthy(a) then a.value else b }

  /** A destructuring default: it applies only when the property is absent, not when it is empty. */
  function Default(a: Option<string>, b: string): string { if a.Some? then a.value else b }

  // ---------------------------------------------------------------- truncation

  /** `s.length > max ? s.substring(0, max - 3) + '...' : s`. */
  function Truncate(s: string, max: nat): string
    requires max >= 3
  {
    if |s| > max then s[..max - 3] + "..." else s
  }

  /** A truncated string never exceeds the bound, is untouched when it fits, and otherwise keeps its opening. */
  lemma TruncateShape(s: string, max: nat)
    requires max >= 3
    ensures |Truncate(s, max)| <= max
    ensures |s| <= max ==> Truncate(s, max) == s
    ensures |s| > max ==> |Truncate(s, max)| == max
    ensures |s| > max ==> IsPrefix(s[..max - 3], Truncate(s, max)) && IsSuffix("...", Truncate(s, max))
  {
    if |s| > max {
      PrefixOfConcat(s[..max - 3], "...");
      SuffixOfConcat(s[..max - 3], "...");
    }
  }

  /** `document.title`: at most 60 characters. */
  function DocumentTitle(title: string): string { Truncate(title, 60) }

  /** The meta description: at most 160 characters. */
  function MetaDescription(description: string): string { Truncate(description, 160) }

  // ---------------------------------------------------------------- meta tags

  /** The meta tags the effect writes; each stands for its selector. */
  datatype Tag =
    | Description | Keywords | Robots
    | OgTitle | OgDescription | OgType | OgImage | OgImageWidth | OgImageHeight | OgLocale | OgSiteName | OgUrl
    | TwitterCard | TwitterTitle | TwitterDescription | TwitterImage | TwitterUrl

  /** The attribute a tag is found by: `property` for Open Graph, `name` for the rest. */
  predicate IsProperty(t: Tag)
  {
    t.OgTitle? || t.OgDescription? || t.OgType? || t.OgImage? || t.OgImageWidth? || t.OgImageHeight?
    || t.OgLocale? || t.OgSiteName? || t.OgUrl?
  }

  /** The selector prefix of a tag found by `name`. */
  const NamePrefix := "meta[name=\""
  const SelectorEnd := "\"]"

  /** What `setMetaTag` writes into the `name` attribute of a tag it creates: the selector with its wrapper removed. */
  function NameFromSelector(selector: string): string
  {
    ReplaceFirst(ReplaceFirst(selector, NamePrefix, ""), SelectorEnd, "")
  }

  /** A two-element pattern with distinct elements, absent from `s`, is first found where it was appended to `s`. */
  lemma {:induction false} FoundWhereAppended<T>(s: seq<T>, pat: seq<T>)
    requires |pat| == 2 && pat[0] != pat[1] && !Contains(s, pat)
    ensures IndexOf(s + pat, pat) == Some(|s|)
  {
    var t := s + pat;
    assert t[|s|..|s| + 2] == pat;
    assert OccursAt(t, pat, |s|);
    var j := IndexOf(t, pat).value;
    if j + 2 <= |s| {
      assert t[j..j + 2] == s[j..j + 2];
      assert OccursAt(s, pat, j);
    }
  }

  /** A created tag carries the name its selector asks for, so the next lookup with that selector finds it. */
  lemma NameRoundTrip(name: string)
    requires !Contains(name, SelectorEnd)
    ensures NameFromSelector(NamePrefix + name + SelectorEnd) == name
  {
    var rest := name + SelectorEnd;
    var sel := NamePrefix + rest;
    assert NamePrefix + name + SelectorEnd == sel;
    PrefixOfConcat(NamePrefix, rest);
    assert sel[|NamePrefix|..] == rest;
    assert ReplaceFirst(sel, NamePrefix, "") == rest;
    FoundWhereAppended(name, SelectorEnd);
    assert rest[..|name|] == name;
    assert rest[|name| + 2..] == [];
  }

  const RobotsIndex := "index, follow, max-image-preview:large, max-snippet:-1, max-video-preview:-1"
  const RobotsNoIndex := "noindex, nofollow"

  function RobotsContent(noindex: Option<bool>): string
  {
    if noindex.Some? && noindex.value then RobotsNoIndex else RobotsIndex
  }

  /** The first group of tags: the truncated description, the keywords when given, and robots. */
  function BasicUpdates(p: Props): map<Tag, string>
  {
    var u := map[Description := MetaDescription(p.description), Robots := RobotsContent(p.noindex)];
    if Truthy(p.keywords) then u[Keywords := p.keywords.value] else u
  }

  /** The image the share cards show: `ogImage`, or the site's default image. */
  function ShareImage(p: Props): string { Default(p.ogImage, HeadBaseUrl + "/og-image.jpg") }

  /** The Open Graph tags; `og:url` only for a canonical URL. */
  function OpenGraphUpdates(p: Props): map<Tag, string>
  {
    var u := map[OgTitle := Or(p.ogTitle, p.title)]
      [OgDescription := Or(p.ogDescription, MetaDescription(p.description))]
      [OgType := Default(p.ogType, "website")][OgImage := ShareImage(p)][OgImageWidth := "1200"]
      [OgImageHeight := "630"][OgLocale := "en_AU"][OgSiteName := "PoolZen Pool Services"];
    if Truthy(p.canonical) then u[OgUrl := p.canonical.value] else u
  }

  /** The Twitter card tags, repeating the Open Graph title, description and image; `twitter:url` only for a canonical URL. */
  function TwitterUpdates(p: Props): map<Tag, string>
  {
    var u := map[TwitterCard := "summary_large_image"][TwitterTitle := Or(p.ogTitle, p.title)]
      [TwitterDescription := Or(p.ogDescription, MetaDescription(p.description))][TwitterImage := ShareImage(p)];
    if Truthy(p.canonical) then u[TwitterUrl := p.canonical.value] else u
  }

  /** Every tag the effect writes, with what it writes into it. */
  function Updates(p: Props): map<Tag, string>
  {
    BasicUpdates(p) + OpenGraphUpdates(p) + TwitterUpdates(p)
  }

  /** The meta tags after the effect: every written tag takes its new content, every other tag is kept. */
  function MetaAfter(m: map<Tag, string>, p: Props): map<Tag, string>
  {
    m + Updates(p)
  }

  /** Writing one more tag after a group of tags is writing the group with that tag added. */
  lemma UnionThenUpdate<K, V>(m: map<K, V>, u: map<K, V>, k: K, v: V)
    ensures (m + u)[k := v] == m + u[k := v]
  {
  }

  lemma MapUnionAssoc<K, V>(m: map<K, V>, a: map<K, V>, b: map<K, V>)
    ensures (m + a) + b == m + (a + b)
  {
  }

  /** The description is written truncated to 160 characters, robots from `noindex` alone, keywords only when given. */
  lemma BasicShape(p: Props)
    ensures var u := BasicUpdates(p);
      Description in u && u[Description] == MetaDescription(p.description) && |u[Description]| <= 160
      && Robots in u && u[Robots] == RobotsContent(p.noindex)
      && (Keywords in u <==> Truthy(p.keywords))
      && (Truthy(p.keywords) ==> u[Keywords] == p.keywords.value)
      && u.Keys <= {Description, Robots, Keywords}
  {
    TruncateShape(p.description, 160);
  }

  /** The robots tag says `noindex, nofollow` exactly when `noindex` is set. */
  lemma RobotsFollowNoindex(p: Props)
    ensures Robots in BasicUpdates(p)
    ensures BasicUpdates(p)[Robots] == RobotsNoIndex <==> p.noindex == Some(true)
  {
  }

  /** The Twitter card repeats the Open Graph title, description, image and URL. */
  lemma TwitterMirrorsOpenGraph(p: Props)
    ensures var og, tw := OpenGraphUpdates(p), TwitterUpdates(p);
      OgTitle in og && TwitterTitle in tw && og[OgTitle] == tw[TwitterTitle]
      && OgDescription in og && TwitterDescription in tw && og[OgDescription] == tw[TwitterDescription]
      && OgImage in og && TwitterImage in tw && og[OgImage] == tw[TwitterImage]
      && (OgUrl in og <==> Truthy(p.canonical)) && (TwitterUrl in tw <==> Truthy(p.canonical))
      && (Truthy(p.canonical) ==> og[OgUrl] == tw[TwitterUrl] == p.canonical.value)
  {
  }

  /** The share title falls back to the full, untruncated page title; the share description to the truncated one. */
  lemma OpenGraphFallbacks(p: Props)
    ensures var og := OpenGraphUpdates(p);
      OgTitle in og && OgDescription in og
      && (!Truthy(p.ogTitle) ==> og[OgTitle] == p.title)
      && (!Truthy(p.ogDescription) ==> og[OgDescription] == MetaDescription(p.description))
  {
  }

  /** A tag the effect does not write keeps its old content. */
  lemma MetaAfterKeeps(m: map<Tag, string>, p: Props, t: Tag)
    requires t in m && t !in Updates(p)
    ensures t in MetaAfter(m, p) && MetaAfter(m, p)[t] == m[t]
  {
  }

  /** Running the effect again with the same properties leaves the tags as the first run left them. */
  lemma MetaAfterIdempotent(m: map<Tag, string>, p: Props)
    ensures MetaAfter(MetaAfter(m, p), p) == MetaAfter(m, p)
  {
    var u := Updates(p);
    assert (m + u) + u == m + u;
  }

  // ---------------------------------------------------------------- structured data

  /** A `<script>` in the head; the ones this component injects carry a `data-seo-structured` tag. */
  datatype Script = Script(seoTag: Option<string>, text: string)

  /** A script `querySelectorAll('script[data-seo-structured]')` does not select. */
  predicate IsBase(s: Script) { s.seoTag.None? }

  function SchemaTag(index: nat): string { "schema-" + Dec(index) }

  /** `Array.isArray(d) ? d : [d]`. */
  function AsList(d: StructuredData): seq<string>
  {
    match d
    case One(json) => [json]
    case Many(items) => items
  }

  /** The scripts the `forEach` appends, the `index`-th tagged `schema-<index>`. */
  function Blocks(data: seq<string>): seq<Script>
  {
    if data == [] then []
    else Blocks(data[..|data| - 1]) + [Script(Some(SchemaTag(|data| - 1)), data[|data| - 1])]
  }

  /** One block per item, in order, tagged `schema-0` … `schema-(n-1)`, and no two tags alike. */
  lemma {:induction false} BlocksTagged(data: seq<string>)
    ensures |Blocks(data)| == |data|
    ensures forall i :: 0 <= i < |data| ==> Blocks(data)[i] == Script(Some(SchemaTag(i)), data[i])
    ensures forall i, j :: 0 <= i < j < |data| ==> Blocks(data)[i].seoTag != Blocks(data)[j].seoTag
  {
    if data != [] {
      var front := data[..|data| - 1];
      BlocksTagged(front);
      forall i | 0 <= i < |front| ensures front[i] == data[i] { }
    }
    forall i, j | 0 <= i < j < |data| ensures SchemaTag(i) != SchemaTag(j) {
      if SchemaTag(i) == SchemaTag(j) {
        assert SchemaTag(i)[7..] == Dec(i) && SchemaTag(j)[7..] == Dec(j);
        DecInjective(i, j);
      }
    }
  }

  /** The scripts after the effect: without structured data nothing changes; otherwise the injected ones are replaced. */
  function ScriptsAfter(scripts: seq<Script>, d: Option<StructuredData>): seq<Script>
  {
    match d
    case None => scripts
    case Some(data) => Filter(scripts, IsBase) + Blocks(AsList(data))
  }

  /** Injected blocks are all tagged, so removing the tagged scripts removes exactly them. */
  lemma {:induction false} BlocksAreInjected(data: seq<string>)
    ensures Filter(Blocks(data), IsBase) == []
  {
    if data != [] {
      var front := data[..|data| - 1];
      BlocksAreInjected(front);
      FilterSnoc(Blocks(front), Script(Some(SchemaTag(|data| - 1)), data[|data| - 1]), IsBase);
    }
  }

  lemma {:induction false} FilterTwice(s: seq<Script>)
    ensures Filter(Filter(s, IsBase), IsBase) == Filter(s, IsBase)
  {
    if s != [] {
      FilterTwice(s[1..]);
    }
  }

  /** The cleanup after an effect leaves exactly the scripts that were not injected before it. */
  lemma CleanupRestoresBase(scripts: seq<Script>, d: Option<StructuredData>)
    ensures Filter(ScriptsAfter(scripts, d), IsBase) == Filter(scripts, IsBase)
  {
    if d.Some? {
      var blocks := Blocks(AsList(d.value));
      FilterAppend(Filter(scripts, IsBase), blocks, IsBase);
      BlocksAreInjected(AsList(d.value));
      FilterTwice(scripts);
    }
  }

  /** Running the effect twice with the same data leaves one copy of the blocks, not two. */
  lemma ScriptsAfterIdempotent(scripts: seq<Script>, d: Option<StructuredData>)
    ensures ScriptsAfter(ScriptsAfter(scripts, d), d) == ScriptsAfter(scripts, d)
  {
    if d.Some? {
      CleanupRestoresBase(scripts, d);
      FilterTwice(scripts);
    }
  }

  // ---------------------------------------------------------------- the document head

  class Head {
    var title: string
    var meta: map<Tag, string>
    var canonicalLink: Option<string>
    var scripts: seq<Script>

    constructor (title: string, meta: map<Tag, string>, canonicalLink: Option<string>, scripts: seq<Script>)
      ensures this.title == title && this.meta == meta && this.canonicalLink == canonicalLink && this.scripts == scripts
    {
      this.title, this.meta, this.canonicalLink, this.scripts := title, meta, canonicalLink, scripts;
    }

    /** `setMetaTag`: update the tag the selector finds, or append a new one; no other tag changes. */
    method SetMetaTag(tag: Tag, content: string)
      modifies this
      ensures meta == old(meta)[tag := content]
      ensures title == old(title) && canonicalLink == old(canonicalLink) && scripts == old(scripts)
    {
      meta := meta[tag := content];
    }

    /** `querySelectorAll('script[data-seo-structured]').forEach(el => el.remove())`. */
    method RemoveInjected()
      modifies this
      ensures scripts == Filter(old(scripts), IsBase)
      ensures title == old(title) && meta == old(meta) && canonicalLink == old(canonicalLink)
    {
      var all := scripts;
      var kept: seq<Script> := [];
      var i := 0;
      while i < |all|
        invariant 0 <= i <= |all|
        invariant kept == Filter(all[..i], IsBase)
        invariant title == old(title) && meta == old(meta) && canonicalLink == old(canonicalLink)
      {
        FilterSnoc(all[..i], all[i], IsBase);
        assert all[..i + 1] == all[..i] + [all[i]];
        if IsBase(all[i]) {
          kept := kept + [all[i]];
        }
        i := i + 1;
      }
      assert all[..i] == all;
      scripts := kept;
    }

    /** `dataArray.forEach((data, index) => …appendChild(script))`. */
    method AppendBlocks(data: seq<string>)
      modifies this
      ensures scripts == old(scripts) + Blocks(data)
      ensures title == old(title) && meta == old(meta) && canonicalLink == old(canonicalLink)
    {
      var i := 0;
      while i < |data|
        invariant 0 <= i <= |data|
        invariant scripts == old(scripts) + Blocks(data[..i])
        invariant title == old(title) && meta == old(meta) && canonicalLink == old(canonicalLink)
      {
        assert data[..i + 1][..i] == data[..i];
        scripts := scripts + [Script(Some(SchemaTag(i)), data[i])];
        i := i + 1;
      }
      assert data[..i] == data;
    }

    /** The description, keywords and robots tags, in source order. */
    method WriteBasicTags(p: Props)
      modifies this
      ensures meta == old(meta) + BasicUpdates(p)
      ensures title == old(title) && canonicalLink == old(canonicalLink) && scripts == old(scripts)
    {
      SetMetaTag(Description, MetaDescription(p.description));
      if Truthy(p.keywords) {
        SetMetaTag(Keywords, p.keywords.value);
      }
      SetMetaTag(Robots, RobotsContent(p.noindex));
    }

    /** The Open Graph tags, in source order. */
    method WriteOpenGraphTags(p: Props)
      modifies this
      ensures meta == old(meta) + OpenGraphUpdates(p)
      ensures title == old(title) && canonicalLink == old(canonicalLink) && scripts == old(scripts)
    {
      ghost var m := old(meta);
      SetMetaTag(OgTitle, Or(p.ogTitle, p.title));
      ghost var u := map[OgTitle := Or(p.ogTitle, p.title)];
      assert meta == m + u;
      SetMetaTag(OgDescription, Or(p.ogDescription, MetaDescription(p.description)));
      UnionThenUpdate(m, u, OgDescription, Or(p.ogDescription, MetaDescription(p.description)));
      u := u[OgDescription := Or(p.ogDescription, MetaDescription(p.description))];
      SetMetaTag(OgType, Default(p.ogType, "website"));
      UnionThenUpdate(m, u, OgType, Default(p.ogType, "website"));
      u := u[OgType := Default(p.ogType, "website")];
      SetMetaTag(OgImage, ShareImage(p));
      UnionThenUpdate(m, u, OgImage, ShareImage(p));
      u := u[OgImage := ShareImage(p)];
      SetMetaTag(OgImageWidth, "1200");
      UnionThenUpdate(m, u, OgImageWidth, "1200");
      u := u[OgImageWidth := "1200"];
      SetMetaTag(OgImageHeight, "630");
      UnionThenUpdate(m, u, OgImageHeight, "630");
      u := u[OgImageHeight := "630"];
      SetMetaTag(OgLocale, "en_AU");
      UnionThenUpdate(m, u, OgLocale, "en_AU");
      u := u[OgLocale := "en_AU"];
      SetMetaTag(OgSiteName, "PoolZen Pool Services");
      UnionThenUpdate(m, u, OgSiteName, "PoolZen Pool Services");
      u := u[OgSiteName := "PoolZen Pool Services"];
      if Truthy(p.canonical) {
        SetMetaTag(OgUrl, p.canonical.value);
        UnionThenUpdate(m, u, OgUrl, p.canonical.value);
      }
    }

    /** The Twitter card tags, in source order. */
    method WriteTwitterTags(p: Props)
      modifies this
      ensures meta == old(meta) + TwitterUpdates(p)
      ensures title == old(title) && canonicalLink == old(canonicalLink) && scripts == old(scripts)
    {
      ghost var m := old(meta);
      SetMetaTag(TwitterCard, "summary_large_image");
      ghost var u := map[TwitterCard := "summary_large_image"];
      assert meta == m + u;
      SetMetaTag(TwitterTitle, Or(p.ogTitle, p.title));
      UnionThenUpdate(m, u, TwitterTitle, Or(p.ogTitle, p.title));
      u := u[TwitterTitle := Or(p.ogTitle, p.title)];
      SetMetaTag(TwitterDescription, Or(p.ogDescription, MetaDescription(p.description)));
      UnionThenUpdate(m, u, TwitterDescription, Or(p.ogDescription, MetaDescription(p.description)));
      u := u[TwitterDescription := Or(p.ogDescription, MetaDescription(p.description))];
      SetMetaTag(TwitterImage, ShareImage(p));
      UnionThenUpdate(m, u, TwitterImage, ShareImage(p));
      u := u[TwitterImage := ShareImage(p)];
      if Truthy(p.canonical) {
        SetMetaTag(TwitterUrl, p.canonical.value);
        UnionThenUpdate(m, u, TwitterUrl, p.canonical.value);
      }
    }

    /** The effect body, in source order. */
    method Apply(p: Props)
      modifies this
      ensures title == DocumentTitle(p.title)
      ensures meta == MetaAfter(old(meta), p)
      ensures canonicalLink == if Truthy(p.canonical) then p.canonical else old(canonicalLink)
      ensures scripts == ScriptsAfter(old(scripts), p.structuredData)
    {
      title := DocumentTitle(p.title);
      WriteBasicTags(p);
      if Truthy(p.canonical) {
        canonicalLink := p.canonical;
      }
      WriteOpenGraphTags(p);
      WriteTwitterTags(p);
      MapUnionAssoc(old(meta), BasicUpdates(p), OpenGraphUpdates(p));
      MapUnionAssoc(old(meta), BasicUpdates(p) + OpenGraphUpdates(p), TwitterUpdates(p));
      if p.structuredData.Some? {
        RemoveInjected();
        AppendBlocks(AsList(p.structuredData.value));
      }
    }

    /** The effect's cleanup. */
    method Cleanup()
      modifies this
      ensures scripts == Filter(old(scripts), IsBase)
      ensures title == old(title) && meta == old(meta) && canonicalLink == old(canonicalLink)
    {
      RemoveInjected();
    }
  }
}
