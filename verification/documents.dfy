/** The three text artifacts: the store listing record (`generateAppStoreListing`)
    and the two dated legal documents. Only the listing's structured fields are
    modelled; the long-form prose is not. */
module Documents {

  datatype Categories = Categories(primary: string, secondary: string)

  /** The listing record serialized to JSON. The long description is left out. */
  datatype Listing = Listing(
    name: string,
    subtitle: string,
    keywords: seq<string>,
    categories: Categories,
    ageRating: string,
    contentWarnings: seq<string>)

  const LISTING_FILE: string := "app-store-listing.json"
  const PRIVACY_FILE: string := "privacy-policy.md"
  const TERMS_FILE: string := "terms-of-service.md"

  /** The listing `generateAppStoreListing` writes: a social-networking app rated 17+,
      with sixteen keywords. */
  function AppStoreListing(): (l: Listing)
    ensures |l.keywords| == 16
    ensures l.categories.primary == "Social Networking"
    ensures l.categories.primary != l.categories.secondary
    ensures l.ageRating == "17+" && |l.contentWarnings| == 2
  {
    Listing(
      "BeYou - LGBTQ+ Social",
      "Safe Space for Authentic Expression",
      ["LGBTQ+", "social media", "video sharing", "community", "pride",
       "gay", "lesbian", "bisexual", "transgender", "queer", "non-binary",
       "inclusive", "safe space", "authentic", "expression", "identity"],
      Categories("Social Networking", "Entertainment"),
      "17+",
      ["Infrequent/Mild Mature/Suggestive Themes", "User Generated Content"])
  }

  /** No keyword of the listing is repeated. */
  lemma ListingKeywordsDistinct()
    ensures var k := AppStoreListing().keywords;
      forall i, j :: 0 <= i < j < |k| ==> k[i] != k[j]
  {
  }
}
