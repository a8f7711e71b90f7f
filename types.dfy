/**
 * The record shapes of `types.ts`.  Every string field there is a
 * `string`; the hero title, a rendered element rather than text, is not part
 * of `Hero`.  Two fields are renamed because their names are Dafny keywords:
 * the resource field `type` is `kind`, the flow-step and language field
 * `label` is `labelText`.
 */
module Types {

  datatype PDKOption = PDKOption(
    id: string,
    name: string,
    description: string,
    details: string,
    techSummary: string,
    useCases: seq<string>,
    docsLink: string,
    mpwLink: string)

  datatype Tool = Tool(
    id: string,
    name: string,
    category: string,
    description: string,
    website: string,
    installTip: string)

  datatype FlowStep = FlowStep(
    id: int,
    labelText: string,
    description: string,
    details: string)

  /** The closed set `'github' | 'docs' | 'community' | 'course'`. */
  datatype ResourceType = GitHub | Docs | Community | Course

  datatype ResourceLink = ResourceLink(
    title: string,
    url: string,
    kind: ResourceType,
    description: string)

  datatype Nav = Nav(home: string, pdk: string, tools: string, flow: string, resources: string)

  datatype Hero = Hero(description: string, cta: string)

  datatype Intro = Intro(title: string, description: string, bullets: seq<string>, illustration: string)

  datatype PdkSection = PdkSection(title: string, description: string, options: seq<PDKOption>, viewDetails: string)

  datatype ToolsSection = ToolsSection(title: string, description: string, tools: seq<Tool>, visitSite: string)

  datatype FlowSection = FlowSection(title: string, description: string, steps: seq<FlowStep>, cta: string)

  datatype ResourcesSection = ResourcesSection(
    title: string,
    description: string,
    roadmapTitle: string,
    roadmapDescription: string,
    roadmapFeatures: seq<string>)

  datatype Footer = Footer(rights: string, contact: string)

  /** All the translated text of the site for one language. */
  datatype ContentTranslation = ContentTranslation(
    nav: Nav,
    hero: Hero,
    intro: Intro,
    pdkSection: PdkSection,
    toolsSection: ToolsSection,
    flowSection: FlowSection,
    resourcesSection: ResourcesSection,
    footer: Footer)
}
