/**
 * The bilingual string table: language -> section -> string.
 * Values are modelled as JavaScript values, so that the resolver in
 * LanguageContext can be stated over any table, and this one in particular.
 */
module Translations {

  /** The JavaScript values a translation table can hold. */
  datatype JsValue =
    | Undefined
    | Str(s: string)
    | Obj(props: map<string, JsValue>)
    | Arr(items: seq<JsValue>)

  /** JavaScript truthiness: `undefined` and `''` are falsy, objects and arrays are not. */
  predicate Truthy(v: JsValue)
  {
    match v
    case Undefined => false
    case Str(s) => s != ""
    case _ => true
  }

  /** `value && typeof value === 'object'` */
  predicate IsObject(v: JsValue)
  {
    v.Obj? || v.Arr?
  }

  // The two long paragraphs of `about.content`, named so that the tables stay small.
  const PtAboutContent: string := "Desenvolvedor Front-end com experiência no desenvolvimento de aplicações web e mobile, atuando em projetos para empresas internacionais. Especialista em React, Next.js e WordPress, com forte foco em performance, SEO, acessibilidade e qualidade de código. Profissional orientado a resultados, com experiência em ambientes ágeis e colaboração com times distribuídos."
  const EnAboutContent: string := "Front-end Developer with experience in developing web and mobile applications, working on projects for international companies. Specialist in React, Next.js and WordPress, with strong focus on performance, SEO, accessibility and code quality. Results-oriented professional, with experience in agile environments and collaboration with distributed teams."

  // `pt.nav`, translations.js lines 3-9
  const PtNav: map<string, JsValue> := map[
    "home" := Str("Início"),
    "about" := Str("Sobre"),
    "projects" := Str("Projetos"),
    "skills" := Str("Habilidades"),
    "contact" := Str("Contato")
  ]

  // `pt.hero`, translations.js lines 10-15
  const PtHero: map<string, JsValue> := map[
    "title" := Str("Diego Mota Cavalcante"),
    "subtitle" := Str("Desenvolvedor Front-end"),
    "description" := Str("Especialista em React, Next.js e WordPress"),
    "cta" := Str("Ver Projetos")
  ]

  // `pt.about`, translations.js lines 16-22
  const PtAbout: map<string, JsValue> := map[
    "title" := Str("Sobre Mim"),
    "content" := Str(PtAboutContent),
    "location" := Str("Fortaleza – CE, Brasil"),
    "phone" := Str("+55 (85) 99637-0976"),
    "email" := Str("diegomota2374@gmail.com")
  ]

  // `pt.projects`, translations.js lines 23-27
  const PtProjects: map<string, JsValue> := map[
    "title" := Str("Projetos"),
    "viewProject" := Str("Ver Projeto"),
    "viewCode" := Str("Ver Código")
  ]

  // `pt.skills`, translations.js lines 28-34
  const PtSkills: map<string, JsValue> := map[
    "title" := Str("Habilidades"),
    "languages" := Str("Linguagens"),
    "frameworks" := Str("Frameworks"),
    "tools" := Str("Ferramentas"),
    "databases" := Str("Bancos de Dados")
  ]

  // `pt.contact`, translations.js lines 35-44
  const PtContact: map<string, JsValue> := map[
    "title" := Str("Entre em Contato"),
    "name" := Str("Nome"),
    "email" := Str("E-mail"),
    "message" := Str("Mensagem"),
    "send" := Str("Enviar"),
    "sending" := Str("Enviando..."),
    "success" := Str("Mensagem enviada com sucesso!"),
    "error" := Str("Erro ao enviar mensagem. Tente novamente.")
  ]

  const Pt: JsValue := Obj(map[
    "nav" := Obj(PtNav),
    "hero" := Obj(PtHero),
    "about" := Obj(PtAbout),
    "projects" := Obj(PtProjects),
    "skills" := Obj(PtSkills),
    "contact" := Obj(PtContact)
  ])

  // `en.nav`, translations.js lines 47-53
  const EnNav: map<string, JsValue> := map[
    "home" := Str("Home"),
    "about" := Str("About"),
    "projects" := Str("Projects"),
    "skills" := Str("Skills"),
    "contact" := Str("Contact")
  ]

  // `en.hero`, translations.js lines 54-59
  const EnHero: map<string, JsValue> := map[
    "title" := Str("Diego Mota Cavalcante"),
    "subtitle" := Str("Front-end Developer"),
    "description" := Str("Specialist in React, Next.js and WordPress"),
    "cta" := Str("View Projects")
  ]

  // `en.about`, translations.js lines 60-66
  const EnAbout: map<string, JsValue> := map[
    "title" := Str("About Me"),
    "content" := Str(EnAboutContent),
    "location" := Str("Fortaleza – CE, Brazil"),
    "phone" := Str("+55 (85) 99637-0976"),
    "email" := Str("diegomota2374@gmail.com")
  ]

  // `en.projects`, translations.js lines 67-71
  const EnProjects: map<string, JsValue> := map[
    "title" := Str("Projects"),
    "viewProject" := Str("View Project"),
    "viewCode" := Str("View Code")
  ]

  // `en.skills`, translations.js lines 72-78
  const EnSkills: map<string, JsValue> := map[
    "title" := Str("Skills"),
    "languages" := Str("Languages"),
    "frameworks" := Str("Frameworks"),
    "tools" := Str("Tools"),
    "databases" := Str("Databases")
  ]

  // `en.contact`, translations.js lines 79-88
  const EnContact: map<string, JsValue> := map[
    "title" := Str("Get in Touch"),
    "name" := Str("Name"),
    "email" := Str("Email"),
    "message" := Str("Message"),
    "send" := Str("Send"),
    "sending" := Str("Sending..."),
    "success" := Str("Message sent successfully!"),
    "error" := Str("Error sending message. Please try again.")
  ]

  const En: JsValue := Obj(map[
    "nav" := Obj(EnNav),
    "hero" := Obj(EnHero),
    "about" := Obj(EnAbout),
    "projects" := Obj(EnProjects),
    "skills" := Obj(EnSkills),
    "contact" := Obj(EnContact)
  ])
  /** The exported `translations` object. */
  const Table: map<string, JsValue> := map["pt" := Pt, "en" := En]

  const Languages: set<string> := {"pt", "en"}
  const SectionNames: set<string> := {"nav", "hero", "about", "projects", "skills", "contact"}

  /** A section: an object whose every entry is a non-empty string under a dot-free name. */
  ghost predicate StringSection(m: map<string, JsValue>)
  {
    forall k :: k in m ==> '.' !in k && m[k].Str? && m[k].s != ""
  }

  /**
   * A table of depth exactly two: an object of sections under dot-free names,
   * each section an object of non-empty strings.
   */
  ghost predicate TwoLevel(v: JsValue)
  {
    && v.Obj?
    && (forall sec :: sec in v.props ==> '.' !in sec && v.props[sec].Obj?)
    && (forall sec :: sec in v.props && v.props[sec].Obj? ==> StringSection(v.props[sec].props))
  }

  /** No array anywhere in the value. */
  predicate ArrayFree(v: JsValue)
  {
    match v
    case Arr(_) => false
    case Obj(props) => forall k :: k in props ==> ArrayFree(props[k])
    case _ => true
  }

  /** A two-level table holds no arrays, so the resolver's array-index step never applies to it. */
  lemma TwoLevelIsArrayFree(v: JsValue)
    requires TwoLevel(v)
    ensures ArrayFree(v)
  {
    forall sec | sec in v.props ensures ArrayFree(v.props[sec]) {
      var section := v.props[sec];
      assert StringSection(section.props);
      forall k | k in section.props ensures ArrayFree(section.props[k]) {
        assert section.props[k].Str?;
      }
    }
  }

  lemma PtSectionNames() ensures Pt.props.Keys == SectionNames {}
  lemma EnSectionNames() ensures En.props.Keys == SectionNames {}

  /** There are exactly two languages, each with the same six sections. */
  lemma {:induction false} SixSectionsPerLanguage()
    ensures Table.Keys == Languages
    ensures forall lang :: lang in Table ==>
              Table[lang].Obj? && Table[lang].props.Keys == SectionNames
  {
    PtSectionNames();
    EnSectionNames();
  }

  // One lemma per section keeps each proof small.
  lemma NavKeysAgree() ensures PtNav.Keys == EnNav.Keys {}
  lemma HeroKeysAgree() ensures PtHero.Keys == EnHero.Keys {}
  lemma AboutKeysAgree() ensures PtAbout.Keys == EnAbout.Keys {}
  lemma ProjectsKeysAgree() ensures PtProjects.Keys == EnProjects.Keys {}
  lemma SkillsKeysAgree() ensures PtSkills.Keys == EnSkills.Keys {}
  lemma ContactKeysAgree() ensures PtContact.Keys == EnContact.Keys {}

  /** Every section has the same key set in both languages. */
  lemma SectionKeySetsAgree()
    ensures PtNav.Keys == EnNav.Keys && PtHero.Keys == EnHero.Keys && PtAbout.Keys == EnAbout.Keys
    ensures PtProjects.Keys == EnProjects.Keys && PtSkills.Keys == EnSkills.Keys
    ensures PtContact.Keys == EnContact.Keys
  {
    NavKeysAgree(); HeroKeysAgree(); AboutKeysAgree();
    ProjectsKeysAgree(); SkillsKeysAgree(); ContactKeysAgree();
  }

  /** The entries of the contact section. */
  lemma ContactKeys()
    ensures PtContact.Keys == {"title", "name", "email", "message", "send", "sending", "success", "error"}
  {
  }

  /** Six string sections under the six section names make a two-level table. */
  lemma TwoLevelFromSections(props: map<string, JsValue>,
                             nav: map<string, JsValue>, hero: map<string, JsValue>,
                             about: map<string, JsValue>, projects: map<string, JsValue>,
                             skills: map<string, JsValue>, contact: map<string, JsValue>)
    requires props.Keys == SectionNames
    requires props["nav"] == Obj(nav) && props["hero"] == Obj(hero) && props["about"] == Obj(about)
    requires props["projects"] == Obj(projects) && props["skills"] == Obj(skills)
    requires props["contact"] == Obj(contact)
    requires StringSection(nav) && StringSection(hero) && StringSection(about)
    requires StringSection(projects) && StringSection(skills) && StringSection(contact)
    ensures TwoLevel(Obj(props))
  {
  }

  // One lemma per section keeps each proof small.
  lemma PtNavIsStrings() ensures StringSection(PtNav) {}
  lemma PtHeroIsStrings() ensures StringSection(PtHero) {}
  lemma PtAboutIsStrings() ensures StringSection(PtAbout) {}
  lemma PtProjectsIsStrings() ensures StringSection(PtProjects) {}
  lemma PtSkillsIsStrings() ensures StringSection(PtSkills) {}
  lemma PtContactIsStrings() ensures StringSection(PtContact) {}
  lemma EnNavIsStrings() ensures StringSection(EnNav) {}
  lemma EnHeroIsStrings() ensures StringSection(EnHero) {}
  lemma EnAboutIsStrings() ensures StringSection(EnAbout) {}
  lemma EnProjectsIsStrings() ensures StringSection(EnProjects) {}
  lemma EnSkillsIsStrings() ensures StringSection(EnSkills) {}
  lemma EnContactIsStrings() ensures StringSection(EnContact) {}

  lemma {:induction false} PortugueseIsTwoLevel()
    ensures TwoLevel(Pt)
  {
    PtSectionNames();
    PtLookups();
    PtNavIsStrings(); PtHeroIsStrings(); PtAboutIsStrings();
    PtProjectsIsStrings(); PtSkillsIsStrings(); PtContactIsStrings();
    TwoLevelFromSections(Pt.props, PtNav, PtHero, PtAbout, PtProjects, PtSkills, PtContact);
  }

  lemma PtLookups()
    ensures Pt.props["nav"] == Obj(PtNav) && Pt.props["hero"] == Obj(PtHero)
    ensures Pt.props["about"] == Obj(PtAbout) && Pt.props["projects"] == Obj(PtProjects)
    ensures Pt.props["skills"] == Obj(PtSkills) && Pt.props["contact"] == Obj(PtContact)
  {
  }

  lemma {:induction false} EnglishIsTwoLevel()
    ensures TwoLevel(En)
  {
    EnSectionNames();
    EnLookups();
    EnNavIsStrings(); EnHeroIsStrings(); EnAboutIsStrings();
    EnProjectsIsStrings(); EnSkillsIsStrings(); EnContactIsStrings();
    TwoLevelFromSections(En.props, EnNav, EnHero, EnAbout, EnProjects, EnSkills, EnContact);
  }

  lemma EnLookups()
    ensures En.props["nav"] == Obj(EnNav) && En.props["hero"] == Obj(EnHero)
    ensures En.props["about"] == Obj(EnAbout) && En.props["projects"] == Obj(EnProjects)
    ensures En.props["skills"] == Obj(EnSkills) && En.props["contact"] == Obj(EnContact)
  {
  }

  /** Both language tables have depth two, non-empty leaves and dot-free names. */
  lemma {:induction false} TableIsTwoLevel()
    ensures forall lang :: lang in Table ==> TwoLevel(Table[lang])
  {
    PortugueseIsTwoLevel();
    EnglishIsTwoLevel();
  }

  /** No footer or back-to-top section is present. */
  lemma NoFooterOrBackToTop()
    ensures forall lang :: lang in Table ==>
              "footer" !in Table[lang].props && "backToTop" !in Table[lang].props
  {
    SixSectionsPerLanguage();
  }

  /** The name, phone and e-mail strings are the same in both languages. */
  lemma SharedStrings()
    ensures PtHero["title"] == EnHero["title"]
    ensures PtAbout["phone"] == EnAbout["phone"]
    ensures PtAbout["email"] == EnAbout["email"]
    ensures PtHero["subtitle"] != EnHero["subtitle"]
  {
  }
}
