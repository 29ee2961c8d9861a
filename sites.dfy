/** The static table of grid sites the simulator can impersonate (`load_site_config`). */
module Sites {
  import opened Strings

  /** One site profile: identifier, display name, coordinates, customers and nominal cadence in seconds. */
  datatype SiteConfig = SiteConfig(
    siteId: string,
    displayName: string,
    lat: real,
    lon: real,
    customers: seq<string>,
    messageFrequency: real)

  /** The key of the profile used when the configured site name is not in the table. */
  const DefaultSiteName := "auckland-penrose"

  const AucklandPenrose := SiteConfig(
    "AKL_PENROSE", "Auckland Penrose 330kV", -36.8485, 174.7633,
    ["CONTACT_ENERGY", "MERCURY_ENERGY", "GENESIS_ENERGY"], 1.5)
  const WellingtonCentral := SiteConfig(
    "WLG_CENTRAL", "Wellington Central 220kV", -41.2865, 174.7762,
    ["MERCURY_ENERGY", "GENESIS_ENERGY"], 2.0)
  const ChristchurchAddington := SiteConfig(
    "CHC_ADDINGTON", "Christchurch Addington 66kV", -43.5321, 172.6362,
    ["MERIDIAN_ENERGY", "CONTACT_ENERGY"], 1.8)
  const HuntlyPower := SiteConfig(
    "HUNTLY_POWER", "Huntly Power Station", -37.5483, 175.0681,
    ["GENESIS_ENERGY"], 0.8)
  const ManapouriPower := SiteConfig(
    "MANAPOURI_POWER", "Manapouri Power Station", -45.5361, 167.1761,
    ["MERIDIAN_ENERGY"], 1.0)

  /** The five known sites, keyed by site name. */
  function SitesConfig(): map<string, SiteConfig>
  {
    map[
      "auckland-penrose" := AucklandPenrose,
      "wellington-central" := WellingtonCentral,
      "christchurch-addington" := ChristchurchAddington,
      "huntly-power" := HuntlyPower,
      "manapouri-power" := ManapouriPower
    ]
  }

  /** A profile every part of the simulator can rely on: someone to send for, and a positive cadence. */
  predicate UsableSite(c: SiteConfig)
  {
    |c.customers| > 0 && c.messageFrequency >= 0.8
  }

  /**
    Looks a site name up in the table; a name that is not in the table gets
    the `auckland-penrose` profile. Never fails.
   */
  function LoadSiteConfig(siteName: string): (c: SiteConfig)
    ensures UsableSite(c)
    ensures c in SitesConfig().Values
    ensures siteName in SitesConfig() ==> c == SitesConfig()[siteName]
    ensures siteName !in SitesConfig() ==> c == SitesConfig()[DefaultSiteName]
  {
    var sites := SitesConfig();
    if siteName in sites then sites[siteName] else sites[DefaultSiteName]
  }

  /** The table holds exactly the five documented site names, each with its own site id. */
  lemma KnownSites()
    ensures SitesConfig().Keys ==
      {"auckland-penrose", "wellington-central", "christchurch-addington", "huntly-power", "manapouri-power"}
    ensures forall a, b :: a in SitesConfig() && b in SitesConfig() && a != b ==>
      SitesConfig()[a].siteId != SitesConfig()[b].siteId
  {
  }

  /** A name outside the table resolves to a profile identical to `auckland-penrose`. */
  lemma UnknownSiteFallsBack(siteName: string)
    requires siteName !in
      {"auckland-penrose", "wellington-central", "christchurch-addington", "huntly-power", "manapouri-power"}
    ensures LoadSiteConfig(siteName) == LoadSiteConfig(DefaultSiteName)
    ensures LoadSiteConfig(siteName).siteId == "AKL_PENROSE"
  {
    KnownSites();
  }

  /** The Wellington scenario: display name and nominal cadence. */
  lemma WellingtonScenario()
    ensures LoadSiteConfig("wellington-central").displayName == "Wellington Central 220kV"
    ensures LoadSiteConfig("wellington-central").messageFrequency == 2.0
    ensures LoadSiteConfig("wellington-central").siteId == "WLG_CENTRAL"
  {
  }

  /** The Auckland scenario: region `AKL` is the site id `AKL_PENROSE` up to its underscore. */
  lemma AucklandRegion()
    ensures FirstField(LoadSiteConfig("auckland-penrose").siteId, '_') == "AKL"
  {
    assert LoadSiteConfig("auckland-penrose") == AucklandPenrose;
    var id := "AKL_PENROSE";
    assert "AKL" <= id;
    assert id[3] == '_';
    FirstFieldUnique(id, '_', "AKL");
  }
}
