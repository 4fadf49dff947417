/**
 * The application shell: the disclaimer agreement kept in storage, the
 * site settings fetched on mount, and which sections the home page shows.
 */
module App {
  import opened Js
  import opened SiteSettings

  const AgreedKey: string := "disclaimerAgreed"
  const AgreedValue: string := "true"

  /** The home route's sections, in page order. */
  datatype HomeSection = Hero | AboutUs | Services | LawyerTeam | Stats | Testimonials | CaseStudies | Consultation

  /**
   * The home route's sections in page order, given whether services, the
   * lawyer team and the case studies are switched on and whether the
   * disclaimer was agreed to.
   */
  function Layout(services: bool, team: bool, caseStudies: bool, agreed: bool): seq<HomeSection> {
    [Hero, AboutUs]
    + (if services then [Services] else [])
    + (if team then [LawyerTeam] else [])
    + [Stats, Testimonials]
    + (if caseStudies then [CaseStudies] else [])
    + (if agreed then [Consultation] else [])
  }

  /** The hero, about, stats and testimonials sections always show, the hero first. */
  lemma LayoutFixed(services: bool, team: bool, caseStudies: bool, agreed: bool)
    ensures var r := Layout(services, team, caseStudies, agreed);
      Hero in r && AboutUs in r && Stats in r && Testimonials in r && r[0] == Hero
  {
  }

  /** Each optional section shows exactly when its switch is on. */
  lemma LayoutOptional(services: bool, team: bool, caseStudies: bool, agreed: bool)
    ensures Services in Layout(services, team, caseStudies, agreed) <==> services
    ensures LawyerTeam in Layout(services, team, caseStudies, agreed) <==> team
    ensures CaseStudies in Layout(services, team, caseStudies, agreed) <==> caseStudies
    ensures Consultation in Layout(services, team, caseStudies, agreed) <==> agreed
  {
  }

  /**
   * The home route: services and the lawyer team follow their flags, the
   * case studies follow `showNews`, and the consultation form appears only
   * after the disclaimer was agreed to.
   */
  function HomeSections(settings: Flags, hasAgreed: bool): (r: seq<HomeSection>)
    ensures Hero in r && AboutUs in r && Stats in r && Testimonials in r
    ensures Services in r <==> Truthy(settings.showServices)
    ensures LawyerTeam in r <==> Truthy(settings.showTeam)
    ensures CaseStudies in r <==> Truthy(settings.showNews)
    ensures Consultation in r <==> hasAgreed
    ensures r[0] == Hero
  {
    LayoutFixed(Truthy(settings.showServices), Truthy(settings.showTeam), Truthy(settings.showNews), hasAgreed);
    LayoutOptional(Truthy(settings.showServices), Truthy(settings.showTeam), Truthy(settings.showNews), hasAgreed);
    Layout(Truthy(settings.showServices), Truthy(settings.showTeam), Truthy(settings.showNews), hasAgreed)
  }

  /** With the default settings every section but the consultation form shows before agreement. */
  lemma DefaultHome()
    ensures HomeSections(Defaults, false) == [Hero, AboutUs, Services, LawyerTeam, Stats, Testimonials, CaseStudies]
  {
  }

  /** The stored agreement is exactly the string "true". */
  predicate StoredAgreement(storage: map<string, string>) {
    AgreedKey in storage && storage[AgreedKey] == AgreedValue
  }

  class Shell {
    var hasAgreed: bool
    var showDisclaimer: bool
    var settings: Flags
    var storage: map<string, string>

    constructor (storage0: map<string, string>)
      ensures !hasAgreed && !showDisclaimer && settings == Defaults && storage == storage0
    {
      hasAgreed := false;
      showDisclaimer := false;
      settings := Defaults;
      storage := storage0;
    }

    /** After mount exactly one of the two is set: agreement was stored, or the modal is shown. */
    ghost predicate Settled()
      reads this
    {
      hasAgreed != showDisclaimer
    }

    /** The synchronous part of the mount effect: read the stored agreement. */
    method Mount()
      requires !hasAgreed && !showDisclaimer
      modifies this`hasAgreed, this`showDisclaimer
      ensures hasAgreed <==> StoredAgreement(storage)
      ensures showDisclaimer <==> !StoredAgreement(storage)
      ensures Settled()
    {
      if AgreedKey in storage && storage[AgreedKey] == AgreedValue {
        hasAgreed := true;
      } else {
        showDisclaimer := true;
      }
    }

    /** The settings request completing, at whatever point it does. */
    method SettingsLoaded(reply: SettingsReply)
      modifies this`settings
      ensures settings == AfterFetch(old(settings), reply)
    {
      settings := AfterFetch(settings, reply);
    }

    /** The disclaimer's agree button. */
    method HandleAgree()
      modifies this`storage, this`hasAgreed, this`showDisclaimer
      ensures storage == old(storage)[AgreedKey := AgreedValue]
      ensures StoredAgreement(storage)
      ensures hasAgreed && !showDisclaimer && Settled()
    {
      storage := storage[AgreedKey := AgreedValue];
      hasAgreed := true;
      showDisclaimer := false;
    }

    function Home(): (r: seq<HomeSection>)
      reads this
      ensures Consultation in r <==> hasAgreed
      ensures CaseStudies in r <==> Truthy(settings.showNews)
    {
      HomeSections(settings, hasAgreed)
    }
  }

  /** Agreeing once means a later load, from the storage it left, never shows the modal. */
  method AgreeThenReload(storage0: map<string, string>) returns (first: Shell, second: Shell)
    ensures first.hasAgreed && !first.showDisclaimer
    ensures second.storage == first.storage
    ensures second.hasAgreed && !second.showDisclaimer
    ensures Consultation in second.Home()
  {
    first := new Shell(storage0);
    first.Mount();
    if first.showDisclaimer {
      first.HandleAgree();
    }
    second := new Shell(first.storage);
    second.Mount();
  }
}
