/** Per-project enrichment of the site's repository cards (src/lib/github.ts).

    A static `RepoConfig` is turned into a `RepoCardData` by overlaying three
    remote sources in a fixed order: repository information (its failure is
    caught on the spot), the most recent git tag and, when a package is
    configured, the npm registry entry (their failures abort the card). The
    batch operation catches an aborted card and substitutes a minimal record
    built from the descriptor alone.

    The network is a parameter: `Network` answers each URL with a settled
    promise, the parsed JSON body or a rejection. */
module GitHub {
  import opened Js

  // ---------------------------------------------------------------------------
  // Data model
  // ---------------------------------------------------------------------------

  /** A project descriptor, written by the site's author. */
  datatype RepoConfig = RepoConfig(
    slug: string,
    repo: string,               // "owner/name"
    description: string,
    npm: Option<string>,        // npm package name, may be null or absent
    displayName: Option<string> // title override, may be null or absent
  )

  /** The `license` sub-object of the repository payload, as `?.` reads it. */
  datatype License = License(spdxId: Option<string>, name: Option<string>)

  /** The fields of the repository payload that the merge reads. */
  datatype GitHubRepoInfo = GitHubRepoInfo(
    name: Option<string>,
    stargazersCount: int,
    pushedAt: string,
    htmlUrl: string,
    homepage: Option<string>,
    language: Option<string>,
    license: Option<License>,
    openIssuesCount: int,
    topics: Option<seq<string>>
  )

  /** The body of the tags request. When it is an array, each entry is
      recorded as `tags[i]?.name`: absent when the entry or its name is nullish. */
  datatype TagsResponse = NotAnArray | TagArray(names: seq<Option<string>>)

  /** The npm registry payload, as `npm['dist-tags']?.latest` reads it. */
  datatype NpmPackageInfo = NpmPackageInfo(latest: Option<string>)

  /** How a promise settles: with a value, or by throwing. */
  datatype Settled<+T> = Resolved(value: T) | Rejected

  /** What the three HTTP endpoints answer, per requested URL. */
  datatype Network = Network(
    repoApi: string -> Settled<GitHubRepoInfo>,
    tagsApi: string -> Settled<TagsResponse>,
    npmRegistry: string -> Settled<NpmPackageInfo>
  )

  datatype VersionSource = Npm | Git | Unreleased

  /** The display record handed to the page templates. */
  datatype RepoCardData = RepoCardData(
    title: string,
    description: string,
    version: Option<string>,
    unreleased: Option<bool>,
    versionSource: Option<VersionSource>,
    stars: Option<int>,
    lastUpdated: Option<string>,
    githubUrl: Option<string>,
    npmUrl: Option<string>,
    mainUrl: Option<string>,
    primaryLanguage: Option<string>,
    license: Option<string>,
    openIssues: Option<int>,
    tags: seq<string>
  )

  // ---------------------------------------------------------------------------
  // URLs
  // ---------------------------------------------------------------------------

  function RepoApiUrl(repo: string): string { "https://api.github.com/repos/" + repo }

  function TagsApiUrl(repo: string): string { "https://api.github.com/repos/" + repo + "/tags?per_page=1" }

  function NpmRegistryUrl(npm: string): string { "https://registry.npmjs.org/" + npm }

  function NpmPageUrl(npm: string): string { "https://npmjs.com/" + npm }

  function GitHubPageUrl(repo: string): string { "https://github.com/" + repo }

  // ---------------------------------------------------------------------------
  // Reference definition of one card, field by field
  // ---------------------------------------------------------------------------

  /** The repository payload, when its request resolved. */
  function RepoInfoOf(config: RepoConfig, net: Network): Option<GitHubRepoInfo>
  {
    match net.repoApi(RepoApiUrl(config.repo))
    case Resolved(info) => Some(info)
    case Rejected => None
  }

  /** `tags[0]?.name ?? ''` when at least one tag came back, absent otherwise. */
  function TagVersion(tags: TagsResponse): Option<string>
  {
    if tags.TagArray? && |tags.names| > 0 then Some(Coalesce(tags.names[0], "")) else None
  }

  /** `repo.license?.spdx_id ?? repo.license?.name ?? undefined` */
  function LicenseOf(info: GitHubRepoInfo): Option<string>
  {
    if info.license.Some? then OrElse(info.license.value.spdxId, info.license.value.name) else None
  }

  /** The npm `latest` tag, when a package is configured and its request resolved. */
  function NpmLatest(config: RepoConfig, net: Network): Option<string>
  {
    if Truthy(config.npm) then
      match net.npmRegistry(NpmRegistryUrl(config.npm.value))
      case Resolved(pkg) => pkg.latest
      case Rejected => None
    else None
  }

  /** Building a card throws exactly when the tags request rejects, or when a
      package is configured and the registry request rejects. */
  predicate BuildRejects(config: RepoConfig, net: Network)
  {
    net.tagsApi(TagsApiUrl(config.repo)).Rejected?
    || (Truthy(config.npm) && net.npmRegistry(NpmRegistryUrl(config.npm.value)).Rejected?)
  }

  /** The version fields of a finished card agree: a truthy version comes
      from npm or git and the card is not marked unreleased; otherwise it is
      marked unreleased. */
  predicate VersionConsistent(card: RepoCardData)
  {
    if Truthy(card.version) then
      card.unreleased.None? && (card.versionSource == Some(Npm) || card.versionSource == Some(Git))
    else
      card.unreleased == Some(true) && card.versionSource == Some(Unreleased)
  }

  /** What `buildRepoCard` settles to, each field given by its final value. */
  function EnrichedCard(config: RepoConfig, net: Network): (r: Settled<RepoCardData>)
    ensures r.Rejected? <==> BuildRejects(config, net)
    ensures r.Resolved? ==> VersionConsistent(r.value)
    ensures r.Resolved? ==> r.value.description == config.description
  {
    if BuildRejects(config, net) then Rejected
    else
      var info := RepoInfoOf(config, net);
      var latest := NpmLatest(config, net);
      var version := if Truthy(latest) then latest else TagVersion(net.tagsApi(TagsApiUrl(config.repo)).value);
      Resolved(RepoCardData(
        title := Coalesce(config.displayName, if info.Some? then Coalesce(info.value.name, config.slug) else config.slug),
        description := config.description,
        version := version,
        unreleased := if Truthy(version) then None else Some(true),
        versionSource := if !Truthy(version) then Some(Unreleased) else if Truthy(latest) then Some(Npm) else Some(Git),
        stars := if info.Some? then Some(info.value.stargazersCount) else None,
        lastUpdated := if info.Some? then Some(info.value.pushedAt) else None,
        githubUrl := if info.Some? then Some(info.value.htmlUrl) else None,
        npmUrl := if Truthy(config.npm) then Some(NpmPageUrl(config.npm.value)) else None,
        mainUrl := if info.Some? then OrUndefined(info.value.homepage) else None,
        primaryLanguage := if info.Some? then info.value.language else None,
        license := if info.Some? then LicenseOf(info.value) else None,
        openIssues := if info.Some? then Some(info.value.openIssuesCount) else None,
        tags := if info.Some? then Coalesce(info.value.topics, []) else []
      ))
  }

  // ---------------------------------------------------------------------------
  // buildRepoCard: one mutable record, overwritten step by step
  // ---------------------------------------------------------------------------

  /** The per-project merge. `base` is overwritten field by field; a rejected
      request after the repository step abandons it by settling `Rejected`. */
  method BuildRepoCard(config: RepoConfig, net: Network) returns (r: Settled<RepoCardData>)
    ensures r == EnrichedCard(config, net)
  {
    var base := RepoCardData(
      title := Coalesce(config.displayName, config.slug),
      description := config.description,
      version := None, unreleased := None, versionSource := Some(Unreleased),
      stars := None, lastUpdated := None, githubUrl := None, npmUrl := None, mainUrl := None,
      primaryLanguage := None, license := None, openIssues := None,
      tags := []);

    // Repository information: a rejection keeps the fallback values.
    var repoResponse := net.repoApi(RepoApiUrl(config.repo));
    if repoResponse.Resolved? {
      var repo := repoResponse.value;
      base := base.(title := Coalesce(config.displayName, Coalesce(repo.name, config.slug)));
      base := base.(stars := Some(repo.stargazersCount));
      base := base.(lastUpdated := Some(repo.pushedAt));
      base := base.(githubUrl := Some(repo.htmlUrl));
      base := base.(mainUrl := OrUndefined(repo.homepage));
      base := base.(primaryLanguage := repo.language);
      base := base.(license := LicenseOf(repo));
      base := base.(openIssues := Some(repo.openIssuesCount));
      base := base.(tags := Coalesce(repo.topics, []));
    }

    // Latest git tag: a rejection aborts the card.
    var tagsResponse := net.tagsApi(TagsApiUrl(config.repo));
    if tagsResponse.Rejected? {
      return Rejected;
    }
    var tags := tagsResponse.value;
    if tags.TagArray? && |tags.names| > 0 {
      base := base.(version := Some(Coalesce(tags.names[0], "")));
      base := base.(versionSource := Some(Git));
    }

    // npm registry: only for a truthy package name; a rejection aborts the card.
    if Truthy(config.npm) {
      var npmResponse := net.npmRegistry(NpmRegistryUrl(config.npm.value));
      if npmResponse.Rejected? {
        return Rejected;
      }
      var npmVersion := npmResponse.value.latest;
      if Truthy(npmVersion) {
        base := base.(version := npmVersion);
        base := base.(versionSource := Some(Npm));
      }
      base := base.(npmUrl := Some(NpmPageUrl(config.npm.value)));
    }

    if !Truthy(base.version) {
      base := base.(unreleased := Some(true));
      base := base.(versionSource := Some(Unreleased));
    }

    return Resolved(base);
  }

  // ---------------------------------------------------------------------------
  // fetchRepoCards: per-item catch and an order-preserving map
  // ---------------------------------------------------------------------------

  /** The record the catch branch returns: descriptor data only. */
  function MinimalCard(config: RepoConfig): (card: RepoCardData)
    ensures card.title == (if config.displayName.Some? then config.displayName.value else config.slug)
    ensures card.description == config.description
    ensures card.githubUrl == Some(GitHubPageUrl(config.repo))
    ensures card.npmUrl.Some? <==> Truthy(config.npm)
    ensures card.npmUrl.Some? ==> card.npmUrl.value == NpmPageUrl(config.npm.value)
    ensures card.tags == []
    ensures card.version.None? && card.versionSource.None? && card.unreleased.None?
    ensures card.stars.None? && card.lastUpdated.None? && card.license.None?
    ensures card.mainUrl.None? && card.primaryLanguage.None? && card.openIssues.None?
  {
    RepoCardData(
      title := Coalesce(config.displayName, config.slug),
      description := config.description,
      version := None, unreleased := None, versionSource := None,
      stars := None, lastUpdated := None,
      githubUrl := Some(GitHubPageUrl(config.repo)),
      npmUrl := if Truthy(config.npm) then Some(NpmPageUrl(config.npm.value)) else None,
      mainUrl := None, primaryLanguage := None, license := None, openIssues := None,
      tags := [])
  }

  /** One item of the batch: the built card, or the minimal record if building threw. */
  function SettleCard(config: RepoConfig, net: Network): (card: RepoCardData)
    ensures card.description == config.description
    ensures config.displayName.Some? ==> card.title == config.displayName.value
    ensures VersionConsistent(card) <==> !BuildRejects(config, net)
    ensures BuildRejects(config, net) ==>
              card.version.None? && card.versionSource.None? && card.unreleased.None?
  {
    match EnrichedCard(config, net)
    case Resolved(card) => card
    case Rejected => MinimalCard(config)
  }

  /** `fetchRepoCards`: one card per descriptor, in the same order; it never throws. */
  function FetchRepoCards(configs: seq<RepoConfig>, net: Network): (cards: seq<RepoCardData>)
    ensures |cards| == |configs|
    ensures forall i :: 0 <= i < |configs| ==> cards[i] == SettleCard(configs[i], net)
  {
    if configs == [] then []
    else [SettleCard(configs[0], net)] + FetchRepoCards(configs[1..], net)
  }

  // ---------------------------------------------------------------------------
  // Properties
  // ---------------------------------------------------------------------------

  /** The display-name override wins over the fetched name, which wins over the slug. */
  lemma TitlePrecedence(config: RepoConfig, net: Network)
    ensures !BuildRejects(config, net) ==>
              EnrichedCard(config, net).value.title ==
                if config.displayName.Some? then config.displayName.value
                else if RepoInfoOf(config, net).Some? && RepoInfoOf(config, net).value.name.Some?
                then RepoInfoOf(config, net).value.name.value
                else config.slug
    ensures BuildRejects(config, net) ==>
              SettleCard(config, net).title == Coalesce(config.displayName, config.slug)
  {
  }

  /** A rejected repository request does not abort the card: it keeps the
      initial title and description and none of the repository fields. */
  lemma RepoInfoFailureKeepsFallback(config: RepoConfig, net: Network)
    requires net.repoApi(RepoApiUrl(config.repo)).Rejected?
    requires !BuildRejects(config, net)
    ensures var card := SettleCard(config, net);
      && card == EnrichedCard(config, net).value
      && card.title == Coalesce(config.displayName, config.slug)
      && card.description == config.description
      && card.stars.None? && card.lastUpdated.None? && card.githubUrl.None?
      && card.mainUrl.None? && card.primaryLanguage.None? && card.license.None?
      && card.openIssues.None? && card.tags == []
  {
  }

  /** What a resolved repository request contributes. */
  lemma RepoInfoFields(config: RepoConfig, net: Network, info: GitHubRepoInfo)
    requires net.repoApi(RepoApiUrl(config.repo)) == Resolved(info)
    requires !BuildRejects(config, net)
    ensures var card := EnrichedCard(config, net).value;
      && card.stars == Some(info.stargazersCount)
      && card.lastUpdated == Some(info.pushedAt)
      && card.githubUrl == Some(info.htmlUrl)
      && (card.mainUrl.None? <==> info.homepage.None? || info.homepage.value == "")
      && (card.mainUrl.Some? ==> card.mainUrl == info.homepage)
      && card.primaryLanguage == info.language
      && card.openIssues == Some(info.openIssuesCount)
      && card.license == (if info.license.None? then None
                          else if info.license.value.spdxId.Some? then info.license.value.spdxId
                          else info.license.value.name)
      && card.tags == (if info.topics.Some? then info.topics.value else [])
  {
  }

  /** npm `latest` beats the git tag; a falsy version leaves the card unreleased. */
  lemma VersionPrecedence(config: RepoConfig, net: Network, tags: TagsResponse)
    requires net.tagsApi(TagsApiUrl(config.repo)) == Resolved(tags)
    requires !BuildRejects(config, net)
    ensures var card := EnrichedCard(config, net).value;
      && (Truthy(NpmLatest(config, net)) ==>
            card.version == NpmLatest(config, net) && card.versionSource == Some(Npm))
      && (!Truthy(NpmLatest(config, net)) && tags.TagArray? && |tags.names| > 0 ==>
            card.version == Some(Coalesce(tags.names[0], ""))
            && card.versionSource == (if Truthy(tags.names[0]) then Some(Git) else Some(Unreleased)))
      && (!Truthy(NpmLatest(config, net)) && (tags.NotAnArray? || tags.names == []) ==>
            card.version.None? && card.unreleased == Some(true) && card.versionSource == Some(Unreleased))
  {
  }

  /** A configured package always yields the npm page link once its request
      resolves, whether or not it has a `latest` tag. */
  lemma NpmUrlWhenConfigured(config: RepoConfig, net: Network)
    requires !BuildRejects(config, net)
    ensures EnrichedCard(config, net).value.npmUrl ==
              if Truthy(config.npm) then Some("https://npmjs.com/" + config.npm.value) else None
  {
  }

  /** A rejected tags or registry request replaces the whole card by the
      minimal record, whatever the repository request returned. */
  lemma FallbackOnThrow(config: RepoConfig, net: Network)
    requires BuildRejects(config, net)
    ensures var card := SettleCard(config, net);
      && card == MinimalCard(config)
      && card.title == Coalesce(config.displayName, config.slug)
      && card.description == config.description
      && card.githubUrl == Some("https://github.com/" + config.repo)
      && card.npmUrl == (if Truthy(config.npm) then Some("https://npmjs.com/" + config.npm.value) else None)
      && card.tags == []
      && card.version.None? && card.versionSource.None? && card.unreleased.None?
      && card.stars.None? && card.lastUpdated.None? && card.license.None?
      && card.mainUrl.None? && card.primaryLanguage.None? && card.openIssues.None?
  {
  }

  /** A card depends only on the answers to its own three URLs. */
  lemma CardDependsOnlyOnOwnRequests(config: RepoConfig, net1: Network, net2: Network)
    requires net1.repoApi(RepoApiUrl(config.repo)) == net2.repoApi(RepoApiUrl(config.repo))
    requires net1.tagsApi(TagsApiUrl(config.repo)) == net2.tagsApi(TagsApiUrl(config.repo))
    requires Truthy(config.npm) ==>
               net1.npmRegistry(NpmRegistryUrl(config.npm.value)) == net2.npmRegistry(NpmRegistryUrl(config.npm.value))
    ensures SettleCard(config, net1) == SettleCard(config, net2)
  {
  }

  /** Batching does not matter: the cards of a concatenation are the
      concatenation of the cards. */
  lemma {:induction false} FetchRepoCardsConcat(a: seq<RepoConfig>, b: seq<RepoConfig>, net: Network)
    ensures FetchRepoCards(a + b, net) == FetchRepoCards(a, net) + FetchRepoCards(b, net)
  {
    if a == [] {
      assert a + b == b;
    } else {
      assert (a + b)[1..] == a[1..] + b;
      FetchRepoCardsConcat(a[1..], b, net);
    }
  }
}
