# OpenIC Hub: the search and navigation of the site, in Dafny

OpenIC Hub (repository `openpdksite`) is a one-page React site about open
chip design. It has three languages (Portuguese, English, Spanish). It has
five views: home, PDKs, tools, design flow and resources. A global search box
looks up the PDKs and tools of the active language and the shared list of
resource links. This project models and proves:

- **the search** (`getSearchResults`):
  - a query that is blank after trimming finds nothing;
  - otherwise the untrimmed query is lowered;
  - the PDKs, then the tools, then the resource links are scanned;
  - an entry matches when its lowered name or title, or its lowered description,
    contains the query;
  - the first eight matches are shown.
  
  Module `Search` holds the specification `Find`. It also holds the three
  scanning loops as methods proved to compute it, and lemmas on what a result
  list means.
- **the state of the page** (`App`): the language, the page, the search text
  and the focus of the search box, and the events that change them. Class
  `Navigation.App` models it.
- **the catalog** (`constants.tsx`): the translations, the language list and
  the resource links, as Dafny constants in module `Catalog`, with the
  properties the site relies on (stable ids, dense flow steps, one shape in
  every language).
- **concrete searches** on that catalog, decided by the verifier: module
  `SearchExamples`.

Module `Text` gives JavaScript's `toLowerCase`, `trim` and `includes`.
Module `Types` gives the record types of `types.ts`.

Searchable catalog strings longer than 40 characters are written in
`catalog.dfy` as two literals joined by `+`. The value is the one in
`constants.tsx`.

## Model

| member | source | states |
|---|---|---|
| Search.Find | App.tsx:30-57 | At most eight results; a query that `trim` reduces to nothing gives no results. |
| Search.GetSearchResults | App.tsx:30-57 | The early return, the three loops and `slice(0, 8)` compute exactly `Find`: the lowered query's matches among PDKs, tools and resources, cut to eight. |
| Search.Hit | App.tsx:37-51 | The test of every loop holds exactly when the lowered title or the lowered description contains the query at some position; a candidate `Matches` by the same test on its own title and description. |
| Search.Filter | App.tsx:36-54 | The push-if-match of the loops keeps at most the candidates it is given; `FilterSelects` and `FilterSound` state which. |
| Search.ScanPdks | App.tsx:35-40 | The PDK loop appends to what it was given the results of exactly the matching PDKs, in catalog order. |
| Search.ScanTools | App.tsx:42-47 | The tool loop appends the results of exactly the matching tools, in catalog order. |
| Search.ScanResources | App.tsx:49-54 | The resource loop appends the results of exactly the matching resource links, in list order. |
| Search.CategoryOrder | App.tsx:33-54 | The full match list is the PDK matches, then the tool matches, then the resource matches; every PDK result precedes every tool result, which precedes every resource result. |
| Search.PdkMatchIff | App.tsx:36-38 | The PDK at position `i` is among the matches if and only if its lowered name or lowered description contains the query. |
| Search.ToolMatchIff | App.tsx:43-45 | The tool at position `i` is among the matches, after the PDKs, if and only if its lowered name or description contains the query. |
| Search.ResourceMatchIff | App.tsx:50-52 | The resource at position `i` is among the matches, after the tools, if and only if its lowered title or description contains the query. |
| Search.MatchIndices | App.tsx:33-54 | The positions of the matching candidates: in range, strictly increasing, and a position is listed if and only if its candidate matches. |
| Search.FilterSelects | App.tsx:33-54 | The pushed results are exactly the candidates at the matching positions, each once, in order. |
| Search.FilterAppend | App.tsx:33-54 | Scanning two lists one after the other into one array gives the matches of the first, then those of the second. |
| Search.FilterSound | App.tsx:37-52 | Every pushed result is a candidate that matches the query. |
| Search.ResultsArePrefix | App.tsx:31-56 | A whitespace-only query gives no results; any other gives the first `min(8, n)` of the `n` matches, in order. |
| Search.FindShowsAll | App.tsx:56 | When a non-blank query has at most eight matches, all of them are shown. |
| Search.ResultsMatch | App.tsx:32-52 | Every shown result matches the lowered, untrimmed query. |
| Search.CandidateProvenance | App.tsx:33-54 | Candidate `i` is the result literal (`FromPdk`, `FromTool`, `FromResource`, App.tsx:38/45/52) of the entry at its own position: the PDKs fill the first positions, in order, then the tools, then the resource links. Hence PDK results lead to the PDK page and carry the PDK id; tool results lead to the tools page and carry the tool id; resource results lead to the resources page and carry no id. |
| Search.ResultFields | App.tsx:38-52 | Every shown result has the fields of some PDK, some tool or some resource link of the lists searched, with that category's page and id. |
| Text.Includes | App.tsx:37 | `includes`: true if and only if the query occurs at some position of the string. |
| Text.Lower | App.tsx:32 | `toLowerCase`: same length; no ASCII capital remains; every character is either kept or is the lower form of the capital at that position. |
| Text.TrimEmptyIffBlank | App.tsx:31 | `trim()` gives the empty string if and only if the query is whitespace only. |
| Text.Trim | App.tsx:31 | `trim()`: the result is a slice of the query with only whitespace before and after it, and it neither starts nor ends with whitespace. |
| Text.TrimStart | App.tsx:31 | What is dropped in front is whitespace, and what is kept does not start with whitespace. |
| Text.TrimEnd | App.tsx:31 | What is dropped at the end is whitespace, and what is kept does not end with whitespace. |
| Text.CaseVariantFound | App.tsx:32-37 | A query that is a case variant of part of a string is found in the lowered string. |
| Catalog.LanguagesAreComplete | constants.tsx:4-10 | The switcher lists `pt`, `en`, `es`, once each and in this order; the codes are distinct. |
| Catalog.PdkIdsAreStable | constants.tsx:36-250 | In every language (PDK lists at lines 36-58, 128-158 and 220-250) the PDK ids are `ihp`, `sky`, `gf`, in this order and distinct. |
| Catalog.ToolIdsAreStable | constants.tsx:72-79 | In every language the tool ids are `xschem`, `ngspice`, `magic`, `klayout`, `openems`, `openvaf`, in this order and distinct. |
| Catalog.FlowStepsAreDense | constants.tsx:85-275 | In every language (flow steps at lines 85-91, 177-183 and 269-275) there are five flow steps numbered 1 to 5. |
| Catalog.TranslationsHaveSameShape | constants.tsx:12-289 | Every two languages agree on every PDK's id, name, links and number of use cases, on every tool's id, name and site, on the step numbers and on the list lengths. |
| Catalog.ResourcesAreShared | constants.tsx:291-299 | One list of seven resource links serves all languages; their types are github, docs, community, community, community, docs, course. |
| Catalog.Translation | App.tsx:23 | `TRANSLATIONS[lang]`: the catalog of each of the three codes. |
| Navigation.App.constructor | App.tsx:18-21 | The first render: Portuguese, the home page, an empty search box without focus; so no panel and no results. |
| Navigation.App.Content | App.tsx:23 | `t`: the catalog of the current language. |
| Navigation.App.ResultsPanelVisible | App.tsx:114-144 | The panel is open only while the box has the focus and holds text; when that text is whitespace only, the open panel lists no results. |
| Navigation.App.Results | App.tsx:59 | The results of the render have at most eight entries, and none for a blank query. |
| Navigation.App.ComputeResults | App.tsx:23-59 | The render searches the catalog of the current language and the shared resource list, and changes nothing. |
| Navigation.App.SetPage | App.tsx:77-89 | Any page may be reached from any page; language, search text and focus are kept. |
| Navigation.App.SetLang | App.tsx:188-198 | The language becomes the chosen code; page, search text and focus are kept. |
| Navigation.App.SetSearchQuery | App.tsx:103-104 | The search text becomes the box's value, untrimmed; afterwards the panel is open if and only if the box has the focus and the value is not empty. |
| Navigation.App.FocusSearch | App.tsx:105 | The box gains the focus; the panel is then open if and only if the search text is not empty. |
| Navigation.App.HandleClickOutside | App.tsx:61-66 | The focus is dropped exactly when a mounted search bar exists and the press is outside it; the search text and all else are kept; after a press outside a mounted bar the panel is closed. |
| Navigation.App.HandleResultClick | App.tsx:71-75 | The page becomes the result's page, the box is emptied and loses the focus, the language is kept; the panel closes and the results become empty. |
| SearchExamples.EnSky130 | constants.tsx:138-147 | `SKY130` in English shows exactly the SkyWater SKY130 PDK (id `sky`), then the resource SkyWater Open PDK Docs (no id). |
| SearchExamples.PtSky130 | constants.tsx:46-55 | `SKY130` in Portuguese shows the same two results. |
| SearchExamples.EsSky130 | constants.tsx:230-239 | `SKY130` in Spanish shows the same two results. |
| SearchExamples.EnOpen | constants.tsx:138-299 | `open` in English shows exactly eight results, in this order: the SkyWater SKY130 PDK; the tools OpenEMS and OpenVAF; the resources IHP OpenPDK (GitHub), SkyWater Open PDK Docs, CI Aberto (Brazil), Efabless Open MPW and FOSSEE eSim. |
| SearchExamples.LeadingSpaceCounts | App.tsx:31-37 | ` IHP` is not blank, yet, because the query is not trimmed before matching, it does not match the English IHP PDK, which `IHP` does match. |

## Left out

- Rendering: the JSX markup, the icons, `Card`, CSS classes, the result
  count label and the "no results" message. What is shown is given by
  `Results()` and `ResultsPanelVisible()` instead.
- `window.scrollTo` on a page change, and the `mousedown` listener's
  registration and removal. Both are browser side effects. The listener body is
  `HandleClickOutside`.
- The DOM is not modelled. Whether `searchRef.current` is mounted, and whether
  the pressed node lies inside it, are the two parameters of
  `HandleClickOutside`. Both search bars (sidebar and mobile header) attach the
  same ref, so the model does not decide which one it points to.
- `hero.title` is a React element, not text, and is not part of the catalog.
  The footer's year is computed from the clock and is not modelled.
- Text.Lower: lowers ASCII letters only, where `toLowerCase` lowers every
  Unicode capital. The only non-ASCII capital in the catalog is in an install
  tip, which the search does not read. A query holding a non-ASCII capital is
  lowered differently.
- `TRANSLATIONS` is a record keyed by the language code. Here it is the total
  function `Catalog.Translation`.
- `Types`: the field `type` of a resource link (types.ts) and the field `type`
  of a search result (App.tsx:10) are both named `kind`, and the field
  `label` of a flow step or language is named `labelText`, because `type` and
  `label` are Dafny keywords. The string unions of result types, pages and
  resource types are datatypes.
- The concrete searches cover the queries `SKY130` (in all three languages),
  `open` (in English), and `IHP` and ` IHP` on the English IHP PDK. Other
  queries are covered by the general lemmas only.
- The other views (landing, PDK, tools, flow and resources pages) only render
  catalog text. `components/Icons.tsx` and `components/Card.tsx` are not part
  of this model.
