/** The project descriptors the site lists (src/lib/constants.ts), used as
    concrete inputs to the card builder. */
module Catalog {
  import opened Js
  import opened GitHub

  const Helm := RepoConfig(
    slug := "helm",
    repo := "svvysh/helm",
    description := "A CLI/TUI to scaffold, break down, run, and track project specs with Codex worker/verifier loops.",
    npm := None,
    displayName := None)

  const ElectronAgentTools := RepoConfig(
    slug := "electron-agent-tools",
    repo := "svvysh/electron-agent-tools",
    description := "MCP‑free Playwright-powered CLI and TS helpers to launch, attach to, and drive Electron apps over CDP; built for automation, CI, and LLM agents.",
    npm := Some("electron-agent-tools"),
    displayName := None)

  const Tools := [Helm, ElectronAgentTools]

  /** Repository data for helm: 42 stars, MIT, pushed on 2024-01-01. */
  const HelmInfo := GitHubRepoInfo(
    name := Some("helm"),
    stargazersCount := 42,
    pushedAt := "2024-01-01T00:00:00Z",
    htmlUrl := "https://github.com/svvysh/helm",
    homepage := None,
    language := None,
    license := Some(License(spdxId := Some("MIT"), name := Some("MIT License"))),
    openIssuesCount := 0,
    topics := None)

  /** A network where helm's repository and tag requests succeed (one tag,
      `v1.2.0`) and every other request rejects. */
  function HelmOnlyNetwork(): Network
  {
    Network(
      repoApi := u => if u == RepoApiUrl("svvysh/helm") then Resolved(HelmInfo) else Rejected,
      tagsApi := u => if u == TagsApiUrl("svvysh/helm") then Resolved(TagArray([Some("v1.2.0")])) else Rejected,
      npmRegistry := u => Rejected)
  }

  /** The helm card takes its stars, timestamp and license from the
      repository and its version from the git tag. */
  lemma HelmCardExample()
    ensures var card := SettleCard(Helm, HelmOnlyNetwork());
      && card.title == "helm"
      && card.stars == Some(42)
      && card.lastUpdated == Some("2024-01-01T00:00:00Z")
      && card.license == Some("MIT")
      && card.version == Some("v1.2.0")
      && card.versionSource == Some(Git)
      && card.unreleased.None?
  {
    assert BuildRejects(Helm, HelmOnlyNetwork()) == false;
  }

  /** The tags URLs of the two tools differ, so only helm's tag request resolves. */
  lemma ElectronAgentToolsTagsReject()
    ensures BuildRejects(ElectronAgentTools, HelmOnlyNetwork())
  {
    assert |TagsApiUrl(ElectronAgentTools.repo)| != |TagsApiUrl("svvysh/helm")|;
  }

  /** electron-agent-tools' tag request rejects in that network, so its card
      is the minimal record. */
  lemma ElectronAgentToolsFallsBack()
    ensures SettleCard(ElectronAgentTools, HelmOnlyNetwork()) == MinimalCard(ElectronAgentTools)
  {
    ElectronAgentToolsTagsReject();
    FallbackOnThrow(ElectronAgentTools, HelmOnlyNetwork());
  }

  /** The minimal record of electron-agent-tools links to its npm page and its
      GitHub repository, and carries no version and no stars. */
  lemma ElectronAgentToolsMinimalCard()
    ensures var card := MinimalCard(ElectronAgentTools);
      && card.npmUrl == Some(NpmPageUrl("electron-agent-tools"))
      && card.githubUrl == Some(GitHubPageUrl("svvysh/electron-agent-tools"))
      && card.version.None? && card.stars.None?
  {
  }

  /** In the tools batch the second project's failure leaves the first card
      fully enriched. */
  lemma ToolsBatchExample()
    ensures var cards := FetchRepoCards(Tools, HelmOnlyNetwork());
      && |cards| == 2
      && cards[0] == SettleCard(Helm, HelmOnlyNetwork())
      && cards[0].version == Some("v1.2.0") && cards[0].stars == Some(42)
      && cards[1] == MinimalCard(ElectronAgentTools)
  {
    HelmCardExample();
    ElectronAgentToolsFallsBack();
  }
}
