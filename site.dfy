/** `frontend/src/utils/constants.js`: the site's name and base URL (without a configured
    backend URL) and the SEO-friendly country slugs. */
module Site {

  const SiteName: string := "TopTube World Pro"
  const SiteUrl: string := "https://toptubeworldpro.com"

  /** `COUNTRY_SLUGS`: slug to ISO country code. */
  const CountrySlugs: map<string, string> := map[
    "india-youtubers" := "IN",
    "usa-youtubers" := "US",
    "brazil-youtubers" := "BR",
    "mexico-youtubers" := "MX",
    "russia-youtubers" := "RU",
    "japan-youtubers" := "JP",
    "south-korea-youtubers" := "KR",
    "uk-youtubers" := "GB",
    "germany-youtubers" := "DE",
    "france-youtubers" := "FR",
    "indonesia-youtubers" := "ID",
    "philippines-youtubers" := "PH"]
}
