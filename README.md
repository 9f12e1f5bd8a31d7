# svvy-website repository cards, modelled in Dafny

The site shows one card per project. Each card is built from a static
descriptor (`RepoConfig`: slug, `owner/name` repository, description,
optional npm package, optional display name). Three remote sources are
overlaid on it in a fixed order:

1. GitHub repository information. A failed request is caught on the spot.
2. The most recent git tag. A failed request aborts the card.
3. The npm registry entry, only when a package name is configured. A failed
   request aborts the card.

npm `latest` beats the git tag. The display-name override beats the fetched
repository name. A card without a truthy version is marked unreleased.
`fetchRepoCards` catches an aborted card and puts a minimal record, built
from the descriptor alone, in its place. It returns the cards in input order.

Files:

- `js.dfy`, module `Js`: the JavaScript value semantics the merge relies on.
  `null` and `undefined` are one `None`. It defines `??` (`Coalesce`,
  `OrElse`), `|| undefined` (`OrUndefined`) and string truthiness (`Truthy`:
  `''` is falsy).
- `github.dfy`, module `GitHub`: the payload types, the card record, the URL
  builders and the following members.
  - `EnrichedCard`: a field-by-field reference definition of what
    `buildRepoCard` settles to.
  - `BuildRepoCard`: the imperative merge. It overwrites a local record
    step by step, and it is proved equal to `EnrichedCard`.
  - `MinimalCard`, `SettleCard` and `FetchRepoCards`: the catch branch and the
    batch.
  - The lemmas for the precedence, fallback and consistency properties.
- `catalog.dfy`, module `Catalog`: the `TOOLS` descriptors of the site as
  concrete inputs, with a worked single-card example and a batch example.

The network is a parameter. `Network` holds three total functions, one per
endpoint (repository API, tags API, npm registry). Each maps a requested URL
to a settled promise: `Resolved(body)` or `Rejected`.

Three behaviours of the code that a reader of the record type alone might not expect:

- One might read the record as having `version` present exactly when
  `versionSource` is npm or git. In the code, a tag whose name is `''` or
  nullish sets `version = ''`. The final `!base.version` step then marks the
  card unreleased but leaves `version = ''`. `VersionConsistent` therefore
  speaks of a *truthy* version, and `VersionPrecedence` states this case.
- An enriched card whose repository request failed has no `githubUrl`. The
  minimal fallback record does have one, derived from the repository
  identifier.
- The minimal record has no `versionSource` and no `unreleased` flag at all.

## Model

| member | source | states |
|---|---|---|
| `GitHub.EnrichedCard` | src/lib/github.ts:99-149 | The card is rejected exactly when the tags request rejects, or when a truthy npm package's registry request rejects. A failed repository request alone never rejects it. A resolved card keeps the descriptor's description, and its version fields are consistent. |
| `GitHub.BuildRepoCard` | src/lib/github.ts:99-149 | Building `base` step by step gives exactly the reference card. This covers the initial record, the caught repository step, the uncaught tag and npm steps, and the final unreleased step. |
| `GitHub.MinimalCard` | src/lib/github.ts:158-164 | The catch branch's record: title is the display name if present, else the slug; the descriptor's description; the GitHub link built from the repository; an npm link exactly for a truthy package name, built from it; empty tags; and no version, versionSource, unreleased flag, stars, timestamp, license, homepage, language or open issues. |
| `GitHub.SettleCard` | src/lib/github.ts:153-166 | One batch item never fails. Its description is the descriptor's. A display name is always its title. It has consistent version fields exactly when building did not throw. Otherwise it has no version, no versionSource and no unreleased flag. |
| `GitHub.FetchRepoCards` | src/lib/github.ts:151-168 | Exactly one card per descriptor. The card at index i is the settled card of descriptor i. |
| `GitHub.FetchRepoCardsConcat` | src/lib/github.ts:151-167 | The cards of a concatenated list are the concatenated cards, so batching does not change any card. |
| `GitHub.CardDependsOnlyOnOwnRequests` | src/lib/github.ts:109-134 | A card depends only on the answers to its own repository, tags and (when configured) registry URLs. |
| `GitHub.TitlePrecedence` | src/lib/github.ts:101-110 | The title is the display name if present, else the fetched repository name, else the slug. After a throw it is the display name, else the slug. |
| `GitHub.RepoInfoFailureKeepsFallback` | src/lib/github.ts:100-121 | A rejected repository request does not abort the card. It keeps the initial title, the description and empty tags. Stars, timestamp, GitHub URL, homepage, language, license and open issues stay absent. |
| `GitHub.RepoInfoFields` | src/lib/github.ts:108-121 | A resolved repository request sets stars, last push time, GitHub URL, language and open issues. It sets the homepage unless that is null or `''`. The license is `spdx_id`, else the license name, else absent. Tags are the topics, else empty. |
| `GitHub.VersionPrecedence` | src/lib/github.ts:127-146 | A truthy npm `latest` is the version, with source npm. Otherwise a returned tag gives `name ?? ''` as the version, with source git if the name is truthy, else unreleased. With neither, the version is absent and the card is unreleased. |
| `GitHub.NpmUrlWhenConfigured` | src/lib/github.ts:133-141 | A resolved card has the npm page link exactly when the package name is truthy, with or without a `latest` tag. |
| `GitHub.FallbackOnThrow` | src/lib/github.ts:154-165 | When the tags or registry request rejects, the card is the minimal record. It has the display name or slug as title, the description, the GitHub link built from the repository, and the npm link only for a truthy package. It has empty tags and no version, versionSource, unreleased flag, stars or license, even when the repository request succeeded. |
| `Js.OrUndefined` | src/lib/github.ts:114 | The homepage's logical-or with `undefined` is present exactly for a truthy string and then equals it. |
| `Catalog.HelmCardExample` | src/lib/constants.ts:18-23 | The helm descriptor with 42 stars, MIT and tag `v1.2.0` yields title helm, those stars, that timestamp and license, version `v1.2.0` from git, and no unreleased flag. |
| `Catalog.ElectronAgentToolsFallsBack` | src/lib/github.ts:124-126 | With a rejected tags request, the electron-agent-tools card is its minimal record. |
| `Catalog.ElectronAgentToolsMinimalCard` | src/lib/github.ts:158-164 | The minimal electron-agent-tools record links to its npm page and its GitHub repository, and has no version and no stars. |
| `Catalog.ToolsBatchExample` | src/lib/constants.ts:17-30 | In the tools batch, the second project's failure does not touch the first card. That card keeps the helm data while the second card is the minimal record. |

## Left out

- `fetchJson` (HTTP GET, request headers, the bearer token read from the environment, status and body handling) is I/O. Each call is one `Settled` answer of the `Network` parameter, keyed by the URL the code builds.
- A JSON body of `null` is folded into `Rejected` for the repository and npm requests. In the code it throws a TypeError at the first property read of the body. For npm that read comes before any write, and the throw is uncaught. For the repository, the throw is caught. When `displayName` is set, line 110 stops at the display name without reading `repo.name`, so `base.title` is written first and the throw comes at `repo.stargazers_count` (line 111). That write stores the value the title already had from line 101, so folding the case into `Rejected` is exact. For the tags request, such a body is `NotAnArray`. Payloads whose fields have types other than those declared are not modelled.
- Concurrency from `Promise.all` and `async`/`await` is left out. Items share no state, so the batch is a sequential map over a network snapshot in which each URL has one answer.
- The `console.error` diagnostic in the catch branch is left out: it is a side effect with no effect on the result.
- The payload fields the merge does not read are dropped.
- JavaScript numbers (`stargazers_count`, `open_issues_count`) are modelled as `int`.
- `description: config.description ?? null` is the descriptor's description, because the descriptor type makes it a required string.
- The site strings in src/lib/constants.ts and the `PRODUCTS` list are not modelled. Only the `TOOLS` entries are used, as examples.
