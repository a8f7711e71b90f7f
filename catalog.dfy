/**
 * The site's content: the three languages, the translated catalog of each,
 * and the global list of resource links, which is not translated.
 *
 * The searchable texts (PDK and tool names and descriptions, resource titles
 * and descriptions) that are longer than 40 characters are written as two
 * literals joined by `+`; the value is the same string, and the verifier can
 * then read each character of it when it decides the concrete searches in
 * module SearchExamples.
 */
module Catalog {
  import opened Types

  /** `LanguageCode`: the codes that `LANGUAGES` lists. */
  datatype LanguageCode = Pt | En | Es

  /** The code as the site spells it. */
  function CodeName(c: LanguageCode): string
  {
    match c
    case Pt => "pt"
    case En => "en"
    case Es => "es"
  }

  /** An entry of the language switcher: a code and the label shown for it. */
  datatype Language = Language(code: LanguageCode, labelText: string)

  const LANGUAGES: seq<Language> := [Language(Pt, "Português"), Language(En, "English"), Language(Es, "Español")]

  const PT_PDK_IHP: PDKOption := PDKOption(
    "ihp",
    "IHP SG13G2",
    "130nm BiCMOS f_t/f_max 350/450 GHz.",
    "Tecnologia de alto desempenho para RF e mm-Wave.",
    "O processo SG13G2 da IHP é focado em aplicações de altíssima frequência, oferecendo transistores HBT de SiGe com performance excepcional.",
    ["Sistemas de radar mm-Wave", "Comunicação 5G/6G", "Circuitos criogênicos"],
    "https://github.com/IHP-GmbH/IHP-Open-PDK",
    "https://www.ihp-microelectronics.com/services/research-and-prototyping-service/mpw-prototyping-service")

  const PT_PDK_SKY: PDKOption := PDKOption(
    "sky",
    "SkyWater SKY130",
    "O primeiro PDK open-source " + "comercial (130nm).",
    "Processo CMOS robusto para sinais mistos.",
    "O SKY130 é um nó de 130nm maduro e amplamente documentado, ideal para a transição do design acadêmico para o silício.",
    ["Microcontroladores open-source", "Sensores analógicos", "IoT de baixa potência"],
    "https://skywater-pdk.readthedocs.io/",
    "https://efabless.com/open_shuttle_program")

  const PT_PDK_GF: PDKOption := PDKOption(
    "gf",
    "GlobalFoundries 180MCU",
    "180nm CMOS para aplicações IoT.",
    "PDK flexible para prototipagem rápida.",
    "Tecnologia de 180nm otimizada para microcontroladores e aplicações de sinal mixta, com suporte completo no ecossistema Google Open MPW.",
    ["Sistemas embarcados", "Interface de sensores", "Educação em VLSI"],
    "https://github.com/google/gf180mcu-pdk",
    "https://efabless.com/open_shuttle_program")

  const PT_TOOL_XSCHEM: Tool :=
    Tool("xschem", "Xschem", "Esquema", "Captura de esquemáticos VLSI.", "https://xschem.sourceforge.io/", "Disponível em repositórios Linux ou via compilação.")

  const PT_TOOL_NGSPICE: Tool :=
    Tool("ngspice", "Ngspice", "Simulação", "Simulador SPICE de sinal misto.", "https://ngspice.sourceforge.io/", "Integrado ao Xschem e KiCad.")

  const PT_TOOL_MAGIC: Tool :=
    Tool("magic", "Magic VLSI", "Layout", "Layout VLSI com DRC em tempo real.", "http://opencircuitdesign.com/magic/", "Essencial para verificação física.")

  const PT_TOOL_KLAYOUT: Tool :=
    Tool("klayout", "KLayout", "Visualização", "Editor e visualizador de GDSII/OASIS.", "https://www.klayout.de/", "Excelente suporte a scripts Python.")

  const PT_TOOL_OPENEMS: Tool :=
    Tool("openems", "OpenEMS", "EM", "Simulador eletromagnético 3D FDTD.", "https://openems.de/", "Modelagem de antenas e indutores.")

  const PT_TOOL_OPENVAF: Tool :=
    Tool("openvaf", "OpenVAF", "Modelagem", "Compilador Verilog-A moderno.", "https://openvaf.semimod.de/", "Use para modelos compactos de dispositivos.")

  const PT_PDKS: seq<PDKOption> := [PT_PDK_IHP, PT_PDK_SKY, PT_PDK_GF]

  const PT_TOOLS: seq<Tool> := [PT_TOOL_XSCHEM, PT_TOOL_NGSPICE, PT_TOOL_MAGIC, PT_TOOL_KLAYOUT, PT_TOOL_OPENEMS, PT_TOOL_OPENVAF]

  const PT_NAV: Nav := Nav("Início", "PDKs", "Ferramentas", "Fluxo", "Recursos")

  const PT_HERO: Hero := Hero(
    "Democratizando o design de semicondutores na América Latina. Utilize PDKs industriais e ferramentas livres para transformar suas ideias em silício real.",
    "Começar Agora")

  const PT_INTRO: Intro := Intro(
    "Educação e Inovação",
    "O ecossistema Open Source IC permite que estudantes e pesquisadores contornem NDAs restritivos e custos proibitivos de licenciamento.",
    [
      "Acesso livre a PDKs de 130nm e 180nm.",
      "Fluxos de design RTL-to-GDSII automatizados.",
      "Comunidade global ativa (CI Aberto, ysyx).",
      "Oportunidades de fabricação gratuita via MPW."
    ],
    "Diagrama de Camadas de Semicondutores")

  const PT_PDK_SECTION: PdkSection := PdkSection(
    "PDKs Suportados",
    "Escolha a tecnologia certa para o seu projeto de pesquisa ou prototipagem.",
    PT_PDKS,
    "Ver Detalhes")

  const PT_TOOLS_SECTION: ToolsSection := ToolsSection(
    "Toolchain Open EDA",
    "Uma suíte completa de ferramentas para capturar, simular e layoutar seu chip.",
    PT_TOOLS,
    "Visitar Site")

  const PT_FLOW_SECTION: FlowSection := FlowSection(
    "Fluxo de Trabalho",
    "Do RTL ao GDSII: como o silício é criado.",
    [
      FlowStep(1, "Design & RTL", "Escreva seu código Verilog ou desenhe seu esquema.", "Nesta fase, você define a funcionalidade lógica ou analógica do seu chip."),
      FlowStep(2, "Simulação", "Valide o comportamento elétrico e lógico.", "Use Ngspice para analógico e Icarus/Verilator para digital."),
      FlowStep(3, "P&R", "Posicionamento e Roteamento físico das células.", "Ferramentas como OpenROAD automatizam este processo complexo."),
      FlowStep(4, "Verificação", "DRC e LVS para garantir que o layout está correto.", "O layout deve seguir regras rígidas da fundição (DRC) e bater com o esquema (LVS)."),
      FlowStep(5, "Tapeout", "Geração do arquivo GDSII final para fabricação.", "O GDSII é enviado para a fundição via programas MPW.")
    ],
    "Ver Guia para Iniciantes")

  const PT_RESOURCES_SECTION: ResourcesSection := ResourcesSection(
    "Links e Recursos",
    "Conecte-se com a comunidade e aprofunde seus conhecimentos.",
    "Próximos Passos",
    "Estamos expandindo nossa rede de colaboração em toda a região.",
    ["Tutoriais em Português/Espanhol", "Workshops Regionais", "Bibliotecas de IP Abertas"])

  const PT_FOOTER: Footer := Footer("Todos os direitos reservados.", "Contato")

  const PT: ContentTranslation := ContentTranslation(
    PT_NAV,
    PT_HERO,
    PT_INTRO,
    PT_PDK_SECTION,
    PT_TOOLS_SECTION,
    PT_FLOW_SECTION,
    PT_RESOURCES_SECTION,
    PT_FOOTER)

  const EN_PDK_IHP: PDKOption := PDKOption(
    "ihp",
    "IHP SG13G2",
    "130nm BiCMOS f_t/f_max 350/450 GHz.",
    "High-performance technology for RF and mm-Wave.",
    "The IHP SG13G2 process is focused on ultra-high-frequency applications, offering SiGe HBT transistors with exceptional performance.",
    ["mm-Wave radar systems", "5G/6G communication", "Cryogenic circuits"],
    "https://github.com/IHP-GmbH/IHP-Open-PDK",
    "https://www.ihp-microelectronics.com/services/research-and-prototyping-service/mpw-prototyping-service")

  const EN_PDK_SKY: PDKOption := PDKOption(
    "sky",
    "SkyWater SKY130",
    "The first commercial " + "open-source PDK (130nm).",
    "Robust CMOS process for mixed-signal designs.",
    "SKY130 is a mature and widely documented 130nm node, ideal for transitioning academic designs to silicon.",
    ["Open-source microcontrollers", "Analog sensors", "Low-power IoT"],
    "https://skywater-pdk.readthedocs.io/",
    "https://efabless.com/open_shuttle_program")

  const EN_PDK_GF: PDKOption := PDKOption(
    "gf",
    "GlobalFoundries 180MCU",
    "180nm CMOS for IoT applications.",
    "Flexible PDK for fast prototyping.",
    "180nm technology optimized for microcontrollers and mixed-signal applications, with full support in the Google Open MPW ecosystem.",
    ["Embedded systems", "Sensor interfaces", "VLSI education"],
    "https://github.com/google/gf180mcu-pdk",
    "https://efabless.com/open_shuttle_program")

  const EN_TOOL_XSCHEM: Tool :=
    Tool("xschem", "Xschem", "Schematic", "VLSI schematic capture.", "https://xschem.sourceforge.io/", "Available in Linux repos or via source compilation.")

  const EN_TOOL_NGSPICE: Tool :=
    Tool("ngspice", "Ngspice", "Simulation", "Mixed-signal SPICE simulator.", "https://ngspice.sourceforge.io/", "Integrated with Xschem and KiCad.")

  const EN_TOOL_MAGIC: Tool :=
    Tool("magic", "Magic VLSI", "Layout", "VLSI layout with real-time DRC.", "http://opencircuitdesign.com/magic/", "Essential for physical verification.")

  const EN_TOOL_KLAYOUT: Tool :=
    Tool("klayout", "KLayout", "Masks", "GDSII/OASIS viewer and editor.", "https://www.klayout.de/", "Excellent Python scripting support.")

  const EN_TOOL_OPENEMS: Tool :=
    Tool("openems", "OpenEMS", "EM", "3D FDTD electromagnetic simulator.", "https://openems.de/", "Modeling antennas and inductors.")

  const EN_TOOL_OPENVAF: Tool :=
    Tool("openvaf", "OpenVAF", "Modeling", "Modern Verilog-A compiler.", "https://openvaf.semimod.de/", "Use for compact device models.")

  const EN_PDKS: seq<PDKOption> := [EN_PDK_IHP, EN_PDK_SKY, EN_PDK_GF]

  const EN_TOOLS: seq<Tool> := [EN_TOOL_XSCHEM, EN_TOOL_NGSPICE, EN_TOOL_MAGIC, EN_TOOL_KLAYOUT, EN_TOOL_OPENEMS, EN_TOOL_OPENVAF]

  const EN_NAV: Nav := Nav("Home", "PDKs", "Tools", "Workflow", "Resources")

  const EN_HERO: Hero := Hero(
    "Democratizing semiconductor design in Latin America. Leverage industrial PDKs and free tools to turn your ideas into real silicon.",
    "Get Started")

  const EN_INTRO: Intro := Intro(
    "Education and Innovation",
    "The Open Source IC ecosystem enables students and researchers to bypass restrictive NDAs and prohibitive licensing costs.",
    [
      "Free access to 130nm and 180nm PDKs.",
      "Automated RTL-to-GDSII design flows.",
      "Active global community (CI Aberto, ysyx).",
      "Free fabrication opportunities via MPW programs."
    ],
    "Semiconductor Layer Diagram")

  const EN_PDK_SECTION: PdkSection := PdkSection(
    "Supported PDKs",
    "Choose the right technology for your research or prototyping project.",
    EN_PDKS,
    "View Details")

  const EN_TOOLS_SECTION: ToolsSection := ToolsSection(
    "Open EDA Toolchain",
    "A complete suite of tools to capture, simulate, and layout your chip.",
    EN_TOOLS,
    "Visit Website")

  const EN_FLOW_SECTION: FlowSection := FlowSection(
    "Workflow",
    "From RTL to GDSII: how silicon is born.",
    [
      FlowStep(1, "Design & RTL", "Write Verilog code or draw your schematic.", "In this phase, you define the logical or analog functionality of your chip."),
      FlowStep(2, "Simulation", "Validate electrical and logical behavior.", "Use Ngspice for analog and Icarus/Verilator for digital."),
      FlowStep(3, "P&R", "Physical cell placement and routing.", "Tools like OpenROAD automate this complex process."),
      FlowStep(4, "Verification", "DRC and LVS to ensure correct layout.", "The layout must follow rigid foundry rules (DRC) and match the schematic (LVS)."),
      FlowStep(5, "Tapeout", "Final GDSII generation for manufacturing.", "GDSII is sent to the foundry via MPW programs.")
    ],
    "View Beginner's Guide")

  const EN_RESOURCES_SECTION: ResourcesSection := ResourcesSection(
    "Links and Resources",
    "Connect with the community and deepen your knowledge.",
    "Next Steps",
    "We are expanding our collaboration network across the region.",
    ["Tutorials in PT/ES", "Regional Workshops", "Open IP Libraries"])

  const EN_FOOTER: Footer := Footer("All rights reserved.", "Contact")

  const EN: ContentTranslation := ContentTranslation(
    EN_NAV,
    EN_HERO,
    EN_INTRO,
    EN_PDK_SECTION,
    EN_TOOLS_SECTION,
    EN_FLOW_SECTION,
    EN_RESOURCES_SECTION,
    EN_FOOTER)

  const ES_PDK_IHP: PDKOption := PDKOption(
    "ihp",
    "IHP SG13G2",
    "130nm BiCMOS f_t/f_max 350/450 GHz.",
    "Tecnología de alto rendimiento para RF e mm-Wave.",
    "El proceso SG13G2 de IHP está enfocado en aplicaciones de frecuencia ultra alta, ofreciendo transistores SiGe HBT con un rendimiento excepcional.",
    ["Sistemas de radar mm-Wave", "Comunicación 5G/6G", "Circuitos criogénicos"],
    "https://github.com/IHP-GmbH/IHP-Open-PDK",
    "https://www.ihp-microelectronics.com/services/research-and-prototyping-service/mpw-prototyping-service")

  const ES_PDK_SKY: PDKOption := PDKOption(
    "sky",
    "SkyWater SKY130",
    "El primer PDK open-source " + "comercial (130nm).",
    "Proceso CMOS robusto para diseño de señal mixta.",
    "SKY130 es un nodo de 130nm maduro y ampliamente documentado, ideal para la transición de diseños académicos a silicio.",
    ["Microcontroladores open-source", "Sensores analógicos", "IoT de baja potencia"],
    "https://skywater-pdk.readthedocs.io/",
    "https://efabless.com/open_shuttle_program")

  const ES_PDK_GF: PDKOption := PDKOption(
    "gf",
    "GlobalFoundries 180MCU",
    "180nm CMOS para aplicaciones IoT.",
    "PDK flexible para prototipado rápido.",
    "Tecnología de 180nm optimizada para microcontroladores y aplicaciones de señal mixta, con soporte completo en el ecosistema Google Open MPW.",
    ["Sistemas embebidos", "Interfaz de sensores", "Educación en VLSI"],
    "https://github.com/google/gf180mcu-pdk",
    "https://efabless.com/open_shuttle_program")

  const ES_TOOL_XSCHEM: Tool :=
    Tool("xschem", "Xschem", "Esquema", "Captura de esquemáticos VLSI.", "https://xschem.sourceforge.io/", "Disponible en repositorios Linux o mediante compilación de código fuente.")

  const ES_TOOL_NGSPICE: Tool :=
    Tool("ngspice", "Ngspice", "Simulación", "Simulador SPICE de señal mixta.", "https://ngspice.sourceforge.io/", "Integrado con Xschem y KiCad.")

  const ES_TOOL_MAGIC: Tool :=
    Tool("magic", "Magic VLSI", "Layout", "Layout VLSI con DRC en tiempo real.", "http://opencircuitdesign.com/magic/", "Esencial para la verificación física.")

  const ES_TOOL_KLAYOUT: Tool :=
    Tool("klayout", "KLayout", "Máscaras", "Editor y visualizador de GDSII/OASIS.", "https://www.klayout.de/", "Excelente soporte para scripting en Python.")

  const ES_TOOL_OPENEMS: Tool :=
    Tool("openems", "OpenEMS", "EM", "Simulador electromagnético 3D FDTD.", "https://openems.de/", "Modelado de antenas e indutores.")

  const ES_TOOL_OPENVAF: Tool :=
    Tool("openvaf", "OpenVAF", "Modelado", "Compilador moderno de Verilog-A.", "https://openvaf.semimod.de/", "Úselo para modelos compactos de dispositivos.")

  const ES_PDKS: seq<PDKOption> := [ES_PDK_IHP, ES_PDK_SKY, ES_PDK_GF]

  const ES_TOOLS: seq<Tool> := [ES_TOOL_XSCHEM, ES_TOOL_NGSPICE, ES_TOOL_MAGIC, ES_TOOL_KLAYOUT, ES_TOOL_OPENEMS, ES_TOOL_OPENVAF]

  const ES_NAV: Nav := Nav("Inicio", "PDKs", "Herramientas", "Flujo", "Recursos")

  const ES_HERO: Hero := Hero(
    "Democratizando el diseño de semiconductores en América Latina. Aproveche PDKs industriales y herramientas gratuitas para convertir sus ideas en silicio real.",
    "Empezar Ahora")

  const ES_INTRO: Intro := Intro(
    "Educacción e Innovación",
    "El ecosistema Open Source IC permite que estudiantes e investigadores eviten NDAs restrictivos y costos prohibitivos de licencia.",
    [
      "Acceso gratuito a PDKs de 130nm y 180nm.",
      "Flujos de diseño RTL-to-GDSII automatizados.",
      "Comunidad global activa (CI Aberto, ysyx).",
      "Oportunidades de fabricación gratuita vía MPW."
    ],
    "Diagrama de Capas de Semiconductores")

  const ES_PDK_SECTION: PdkSection := PdkSection(
    "PDKs Soportados",
    "Elija la tecnología adecuada para su proyecto de investigación o prototipado.",
    ES_PDKS,
    "Ver Detalles")

  const ES_TOOLS_SECTION: ToolsSection := ToolsSection(
    "Toolchain Open EDA",
    "Una suite completa de herramientas para capturar, simular y diseñar su chip.",
    ES_TOOLS,
    "Visitar Sitio")

  const ES_FLOW_SECTION: FlowSection := FlowSection(
    "Flujo de Trabajo",
    "De RTL a GDSII: cómo nace el silicio.",
    [
      FlowStep(1, "Diseño & RTL", "Escriba su código Verilog o dibuje su esquema.", "En esta fase, se define la funcionalidad lógica o analógica de su chip."),
      FlowStep(2, "Simulación", "Valide el comportamiento eléctrico y lógico.", "Use Ngspice para analógico e Icarus/Verilator para digital."),
      FlowStep(3, "P&R", "Colocación física de celdas y enrutamiento.", "Herramientas como OpenROAD automatizan este complejo proceso."),
      FlowStep(4, "Verificación", "DRC y LVS para asegurar un layout correcto.", "El layout debe seguir reglas rígidas de la fundición (DRC) y coincidir con el esquema (LVS)."),
      FlowStep(5, "Tapeout", "Generación final de GDSII para fabricación.", "El GDSII se envía a la fundición mediante programas MPW.")
    ],
    "Ver Guía para Principiantes")

  const ES_RESOURCES_SECTION: ResourcesSection := ResourcesSection(
    "Enlaces y Recursos",
    "Conéctese con la comunidad y profundice sus conocimientos.",
    "Próximos Passos",
    "Estamos expandiendo nuestra red de colaboración en toda la región.",
    ["Tutoriales en PT/ES", "Talleres Regionales", "Bibliotecas de IP abiertas"])

  const ES_FOOTER: Footer := Footer("Todos los derechos reservados.", "Contacto")

  const ES: ContentTranslation := ContentTranslation(
    ES_NAV,
    ES_HERO,
    ES_INTRO,
    ES_PDK_SECTION,
    ES_TOOLS_SECTION,
    ES_FLOW_SECTION,
    ES_RESOURCES_SECTION,
    ES_FOOTER)

  const IHP_OPENPDK: ResourceLink :=
    ResourceLink("IHP OpenPDK (GitHub)", "https://github.com/IHP-GmbH/IHP-Open-PDK", GitHub, "The official source for " + "the SG13G2 Open PDK.")

  const SKYWATER_DOCS: ResourceLink :=
    ResourceLink("SkyWater Open PDK Docs", "https://skywater-pdk.readthedocs.io/", Docs, "Complete reference for " + "the SKY130 process.")

  const CI_ABERTO: ResourceLink :=
    ResourceLink("CI Aberto (Brazil)", "https://www.ufrgs.br/cadmicro/ciaberto/", Community, "Brazilian initiative for " + "open hardware curation.")

  const ONE_STUDENT_ONE_CHIP: ResourceLink :=
    ResourceLink("One Student One Chip (ysyx)", "https://ysyx.org/en/", Community, "A massive learning-by-doing " + "program from China.")

  const EFABLESS_MPW: ResourceLink :=
    ResourceLink("Efabless Open MPW", "https://efabless.com/open_shuttle_program", Community, "Apply for free silicon manufacturing.")

  const FOSSEE_ESIM: ResourceLink :=
    ResourceLink("FOSSEE eSim", "https://esim.fossee.in/", Docs, "An integrated circuit design " + "tool using open-source tools.")

  const ZERO_TO_ASIC: ResourceLink :=
    ResourceLink("Zero to ASIC Course", "https://zerotoasiccourse.com/", Course, "Comprehensive guide to " + "designing your first chip.")

  const RESOURCES: seq<ResourceLink> := [
    IHP_OPENPDK,
    SKYWATER_DOCS,
    CI_ABERTO,
    ONE_STUDENT_ONE_CHIP,
    EFABLESS_MPW,
    FOSSEE_ESIM,
    ZERO_TO_ASIC
  ]

  /**
   * `TRANSLATIONS[lang]`, the catalog the page renders and searches.  The
   * record of `constants.tsx` is keyed by the code type, so it has an entry for every
   * code; here that is the totality of the match.
   */
  function Translation(lang: LanguageCode): ContentTranslation
  {
    match lang
    case Pt => PT
    case En => EN
    case Es => ES
  }

  function PdkIds(t: ContentTranslation): seq<string>
  {
    seq(|t.pdkSection.options|, i requires 0 <= i < |t.pdkSection.options| => t.pdkSection.options[i].id)
  }

  function ToolIds(t: ContentTranslation): seq<string>
  {
    seq(|t.toolsSection.tools|, i requires 0 <= i < |t.toolsSection.tools| => t.toolsSection.tools[i].id)
  }

  predicate Distinct<T(==)>(s: seq<T>)
  {
    forall i, j :: 0 <= i < j < |s| ==> s[i] != s[j]
  }

  /** The flow steps are numbered 1, 2, ..., n in display order. */
  predicate DenseSteps(steps: seq<FlowStep>)
  {
    forall i :: 0 <= i < |steps| ==> steps[i].id == i + 1
  }

  /** The parts of a PDK entry that are not translated: id, name, both links, and how many use cases. */
  function PdkShape(p: PDKOption): (string, string, string, string, nat)
  {
    (p.id, p.name, p.docsLink, p.mpwLink, |p.useCases|)
  }

  /** The parts of a tool entry that are not translated: id, name and website. */
  function ToolShape(t: Tool): (string, string, string)
  {
    (t.id, t.name, t.website)
  }

  /**
   * What must agree between languages: the untranslated fields of every PDK
   * and tool, in order, the step numbers, and the length of every list.
   */
  datatype Shape = Shape(
    pdks: seq<(string, string, string, string, nat)>,
    tools: seq<(string, string, string)>,
    stepIds: seq<int>,
    bullets: nat,
    roadmapFeatures: nat)

  function ShapeOf(t: ContentTranslation): Shape
  {
    var pdks, tools, steps := t.pdkSection.options, t.toolsSection.tools, t.flowSection.steps;
    Shape(
      seq(|pdks|, i requires 0 <= i < |pdks| => PdkShape(pdks[i])),
      seq(|tools|, i requires 0 <= i < |tools| => ToolShape(tools[i])),
      seq(|steps|, i requires 0 <= i < |steps| => steps[i].id),
      |t.intro.bullets|,
      |t.resourcesSection.roadmapFeatures|)
  }

  /** The switcher lists each of the three codes `pt`, `en`, `es` once, in this order; the spellings are distinct. */
  lemma LanguagesAreComplete()
    ensures |LANGUAGES| == 3
    ensures [LANGUAGES[0].code, LANGUAGES[1].code, LANGUAGES[2].code] == [Pt, En, Es]
    ensures [CodeName(Pt), CodeName(En), CodeName(Es)] == ["pt", "en", "es"]
    ensures forall c, d: LanguageCode :: CodeName(c) == CodeName(d) ==> c == d
  {
  }

  /** In every language the PDK ids are `ihp`, `sky`, `gf`, in this order and pairwise distinct. */
  lemma PdkIdsAreStable(lang: LanguageCode)
    ensures PdkIds(Translation(lang)) == ["ihp", "sky", "gf"]
    ensures Distinct(PdkIds(Translation(lang)))
  {
  }

  /** In every language the tool ids are the same six, in this order and pairwise distinct. */
  lemma ToolIdsAreStable(lang: LanguageCode)
    ensures ToolIds(Translation(lang)) == ["xschem", "ngspice", "magic", "klayout", "openems", "openvaf"]
    ensures Distinct(ToolIds(Translation(lang)))
  {
  }

  /** In every language there are five flow steps, numbered 1 to 5 in order. */
  lemma FlowStepsAreDense(lang: LanguageCode)
    ensures |Translation(lang).flowSection.steps| == 5
    ensures DenseSteps(Translation(lang).flowSection.steps)
  {
  }

  /** Switching language keeps the shape of the catalog and every id, so anchors stay valid. */
  lemma TranslationsHaveSameShape(a: LanguageCode, b: LanguageCode)
    ensures ShapeOf(Translation(a)) == ShapeOf(Translation(b))
  {
    ShapeMatchesPortuguese(a);
    ShapeMatchesPortuguese(b);
  }

  lemma ShapeMatchesPortuguese(lang: LanguageCode)
    ensures ShapeOf(Translation(lang)) == ShapeOf(PT)
  {
    match lang
    case Pt =>
    case En => assert ShapeOf(EN) == ShapeOf(PT);
    case Es => assert ShapeOf(ES) == ShapeOf(PT);
  }

  /** One list of seven resource links serves every language; their types, in order. */
  lemma ResourcesAreShared()
    ensures |RESOURCES| == 7
    ensures seq(7, i requires 0 <= i < 7 => RESOURCES[i].kind)
         == [GitHub, Docs, Community, Community, Community, Docs, Course]
  {
  }
}
