/** The content adapters: each category's fetch either maps the records of an external API or,
    without an API key or after any failure of the API path, returns fixed demonstration data.
    The APIs themselves are parameters (`Sources`). */
module Content {
  import opened Wrappers
  import opened Text

  datatype Article = Article(title: string, description: string, url: string, imageUrl: Option<string>)
  datatype Meme = Meme(imageUrl: string, caption: string)
  datatype Video = Video(title: string, description: string, videoUrl: string, thumbnailUrl: string)
  /** A weather report. `Inherited` is what the demonstration lookup finds under the lower-cased
      keys "constructor" and "__proto__": not one of its own entries but a member every
      JavaScript object inherits, truthy and without any of the four fields. */
  datatype Weather = Weather(temperature: int, condition: string, humidity: int, windSpeed: int) | Inherited
  datatype SportsItem = SportsItem(title: string, description: string, url: string)
  datatype Trend = Trend(topic: string, count: nat, url: string)

  /** One article of a news API answer; `description` and `urlToImage` may be null. */
  datatype RawArticle = RawArticle(title: string, description: Option<string>, url: string, urlToImage: Option<string>)
  /** One search result of the video API: the snippet's title, description and high thumbnail
      URL, and the video id. */
  datatype RawVideo = RawVideo(title: string, description: string, videoId: string, thumbnailUrl: string)
  /** One trend of the social API; `tweetCount` may be null. */
  datatype RawTrend = RawTrend(trend: string, tweetCount: Option<nat>)

  /** What one API request ends in: an exception somewhere on the API path (network, JSON,
      a record of the wrong shape), or a JSON body whose list field may be missing. */
  datatype Reply<T> = Failed | Body(items: Option<seq<T>>)

  /** The fixed lists the adapters fall back on; the bot's own are `Demonstration`. */
  datatype Demo = Demo(news: seq<Article>, memes: seq<Meme>, videos: seq<Video>, sports: seq<SportsItem>, trends: seq<Trend>)

  /** The outside world of the content adapters: which API keys are configured and what each
      API answers (the weather API answer is already converted and rounded), and the fixed
      lists. */
  datatype Sources = Sources(
    newsKey: bool, newsApi: string -> Reply<RawArticle>,
    videoKey: bool, videoApi: string -> Reply<RawVideo>,
    weatherKey: bool, weatherApi: string -> Option<Weather>,
    socialKey: bool, socialApi: Reply<RawTrend>,
    encodeUri: string -> string,
    demo: Demo)

  /** The demonstration data of lib/content.ts. */
  const Demonstration: Demo := Demo(MockNews, MockMemes, MockVideos, MockSports, MockTrends)

  /** Five articles, five memes, five videos, five sports items and ten trends. */
  lemma DemonstrationSizes()
    ensures |Demonstration.news| == 5 && |Demonstration.memes| == 5 && |Demonstration.videos| == 5
    ensures |Demonstration.sports| == 5 && |Demonstration.trends| == 10
  {
  }

  const NoDescription: string := "No description available"

  /** One API article as the bot keeps it: a null or empty description is replaced. */
  function ArticleOf(a: RawArticle): Article {
    Article(a.title, if a.description.None? || a.description.value == "" then NoDescription else a.description.value,
            a.url, a.urlToImage)
  }

  /** `fetchNews(category)`. */
  function FetchNews(category: string, src: Sources): seq<Article> {
    if src.newsKey then
      match src.newsApi(category)
      case Failed => src.demo.news
      case Body(None) => []
      case Body(Some(xs)) => seq(|xs|, k requires 0 <= k < |xs| => ArticleOf(xs[k]))
    else src.demo.news
  }

  /** Without a key or after an API failure, the news are the fixed articles. */
  lemma NewsFallback(category: string, src: Sources)
    requires !src.newsKey || src.newsApi(category).Failed?
    ensures FetchNews(category, src) == src.demo.news
  {
  }

  /** On the API path every article is kept, in order, with its title and link; a missing
      article list gives no news at all. */
  lemma NewsFromApi(category: string, src: Sources)
    requires src.newsKey && src.newsApi(category).Body?
    ensures src.newsApi(category).items.None? ==> FetchNews(category, src) == []
    ensures src.newsApi(category).items.Some? ==>
      var xs := src.newsApi(category).items.value;
      |FetchNews(category, src)| == |xs| &&
      forall k | 0 <= k < |xs| :: FetchNews(category, src)[k].title == xs[k].title && FetchNews(category, src)[k].url == xs[k].url
  {
  }

  /** Whatever path is taken, every article of the bot has a non-empty description. */
  lemma NewsDescriptionsNonEmpty(category: string, src: Sources)
    requires src.demo == Demonstration
    ensures forall a | a in FetchNews(category, src) :: a.description != ""
  {
    var r := FetchNews(category, src);
    forall a | a in r ensures a.description != "" {
      var k :| 0 <= k < |r| && r[k] == a;
      if src.newsKey && src.newsApi(category).Body? && src.newsApi(category).items.Some? {
        var xs := src.newsApi(category).items.value;
        assert a == ArticleOf(xs[k]);
      } else {
        assert r == MockNews;
      }
    }
  }

  const MockNews: seq<Article> := [
    Article("Ethiopia Announces New Economic " +
            "Reforms to Boost Growth",
            "The Ethiopian government has " +
            "announced a comprehensive " +
            "series of economic reforms " +
            "aimed at boosting growth and " +
            "attracting foreign investment " +
            "to the country.",
            "https://example.com/news/economic-reforms", Some("https://example.com/images/ethiopia-economy.jpg")),
    Article("Ethiopian Airlines Expands " +
            "Fleet with 10 New Aircraft",
            "Ethiopian Airlines has added " +
            "ten new Boeing 737 MAX aircraft " +
            "to its fleet as part of its " +
            "ambitious expansion strategy " +
            "for 2024.",
            "https://example.com/news/ethiopian-airlines", Some("https://example.com/images/ethiopian-airlines.jpg")),
    Article("Addis Ababa Hosts Major African " +
            "Union Summit",
            "The African Union headquarters " +
            "in Addis Ababa is hosting a " +
            "major summit focusing on " +
            "continental trade and economic " +
            "cooperation.",
            "https://example.com/news/au-summit", Some("https://example.com/images/au-summit.jpg")),
    Article("Ethiopia's Coffee Export " +
            "Reaches Record High",
            "Ethiopian coffee exports have " +
            "reached a record high this " +
            "year, contributing " +
            "significantly to the country's " +
            "foreign exchange earnings.",
            "https://example.com/news/coffee-export", Some("https://example.com/images/coffee-export.jpg")),
    Article("New Hydroelectric Dam Project " +
            "Launched in Ethiopia",
            "A new hydroelectric dam project " +
            "has been launched in the Oromia " +
            "region, expected to increase " +
            "the country's power generation " +
            "capacity.",
            "https://example.com/news/hydroelectric-dam", Some("https://example.com/images/dam-project.jpg"))
  ]

  /** `fetchMemes()`: always the fixed memes. */
  function FetchMemes(src: Sources): seq<Meme> {
    src.demo.memes
  }

  const MockMemes: seq<Meme> := [
    Meme("https://via.placeholder.com/500x400/FF6B6B/FFFFFF?text=Ethiopian+Meme+1",
         "When you try to explain " +
         "Ethiopian time to a foreigner 😂"),
    Meme("https://via.placeholder.com/500x400/4ECDC4/FFFFFF?text=Ethiopian+Meme+2",
         "Me trying to eat injera with a " +
         "fork for the first time"),
    Meme("https://via.placeholder.com/500x400/45B7D1/FFFFFF?text=Ethiopian+Meme+3",
         "When someone says they don't " +
         "like Ethiopian coffee ☕"),
    Meme("https://via.placeholder.com/500x400/96CEB4/FFFFFF?text=Ethiopian+Meme+4",
         "Ethiopian mothers when you " +
         "haven't eaten in 2 hours"),
    Meme("https://via.placeholder.com/500x400/FFEAA7/000000?text=Ethiopian+Meme+5",
         "When you hear Ethiopian music " +
         "and start dancing automatically " +
         "🎵")
  ]

  /** The search query `fetchVideos` sends: "Ethiopia " and the category, trimmed. */
  function VideoQuery(category: string): string {
    Trim("Ethiopia " + category)
  }

  /** The query always begins with "Ethiopia", and is exactly that word when the category is
      blank. */
  lemma VideoQueryShape(category: string)
    ensures StartsWith(VideoQuery(category), "Ethiopia")
    ensures AllSpace(category) ==> VideoQuery(category) == "Ethiopia"
  {
    assert "Ethiopia " + category == "Ethiopia" + (" " + category);
    TrimKeepsPrefix("Ethiopia", " " + category);
    if AllSpace(category) {
      assert AllSpace(" " + category) by {
        forall k | 0 <= k < |category| + 1 ensures IsSpace((" " + category)[k]) {
          if k > 0 { assert (" " + category)[k] == category[k - 1]; }
        }
      }
    }
  }

  /** The address of a video page, before the id. */
  const WatchUrl: string := "https://www.youtube.com/watch?v="

  /** One API search result as a video: its link is built from the video id. */
  function VideoOf(v: RawVideo): Video {
    Video(v.title, v.description, WatchUrl + v.videoId, v.thumbnailUrl)
  }

  /** A video's link is the watch address followed by exactly the id of the search result, and
      the other fields are the result's own. */
  lemma VideoLinkNamesId(v: RawVideo)
    ensures StartsWith(VideoOf(v).videoUrl, WatchUrl)
    ensures VideoOf(v).videoUrl[|WatchUrl|..] == v.videoId
    ensures VideoOf(v).title == v.title && VideoOf(v).thumbnailUrl == v.thumbnailUrl
  {
    assert (WatchUrl + v.videoId)[..|WatchUrl|] == WatchUrl;
    assert (WatchUrl + v.videoId)[|WatchUrl|..] == v.videoId;
  }

  /** `fetchVideos(category)`. */
  function FetchVideos(category: string, src: Sources): seq<Video> {
    if src.videoKey then
      match src.videoApi(VideoQuery(category))
      case Failed => src.demo.videos
      case Body(None) => []
      case Body(Some(xs)) => seq(|xs|, k requires 0 <= k < |xs| => VideoOf(xs[k]))
    else src.demo.videos
  }

  /** Without a key or after an API failure, the videos are the fixed ones. */
  lemma VideosFallback(category: string, src: Sources)
    requires !src.videoKey || src.videoApi(VideoQuery(category)).Failed?
    ensures FetchVideos(category, src) == src.demo.videos
  {
  }

  /** On the API path each search result becomes one video, in order; a missing result list
      gives no videos. */
  lemma VideosFromApi(category: string, src: Sources)
    requires src.videoKey && src.videoApi(VideoQuery(category)).Body?
    ensures src.videoApi(VideoQuery(category)).items.None? ==> FetchVideos(category, src) == []
    ensures src.videoApi(VideoQuery(category)).items.Some? ==>
      var xs := src.videoApi(VideoQuery(category)).items.value;
      |FetchVideos(category, src)| == |xs| &&
      forall k | 0 <= k < |xs| :: FetchVideos(category, src)[k] == VideoOf(xs[k])
  {
  }

  const MockVideos: seq<Video> := [
    Video("Traditional Ethiopian Coffee " +
          "Ceremony - Complete Guide",
          "Learn about the traditional " +
          "Ethiopian coffee ceremony, its " +
          "cultural significance, and " +
          "step-by-step process.",
          "https://www.youtube.com/watch?v=example1", "https://via.placeholder.com/480x360/8B4513/FFFFFF?text=Coffee+Ceremony"),
    Video("Exploring Addis Ababa - " +
          "Ethiopia's Vibrant Capital",
          "A comprehensive tour of Addis " +
          "Ababa showcasing its culture, " +
          "food, and attractions.",
          "https://www.youtube.com/watch?v=example2", "https://via.placeholder.com/480x360/228B22/FFFFFF?text=Addis+Ababa"),
    Video("Ethiopian Traditional Music and " +
          "Dance Performance",
          "Experience the rich musical " +
          "heritage of Ethiopia through " +
          "traditional performances.",
          "https://www.youtube.com/watch?v=example3", "https://via.placeholder.com/480x360/FF4500/FFFFFF?text=Music+Dance"),
    Video("Lalibela Rock Churches - UNESCO " +
          "World Heritage Site",
          "Discover the magnificent " +
          "rock-hewn churches of Lalibela, " +
          "one of Ethiopia's most famous " +
          "attractions.",
          "https://www.youtube.com/watch?v=example4", "https://via.placeholder.com/480x360/8B4513/FFFFFF?text=Lalibela"),
    Video("Ethiopian Cuisine - Injera and " +
          "Traditional Dishes",
          "Learn about Ethiopian cuisine, " +
          "including how injera is made " +
          "and popular traditional dishes.",
          "https://www.youtube.com/watch?v=example5", "https://via.placeholder.com/480x360/DC143C/FFFFFF?text=Ethiopian+Food")
  ]

  const AddisAbabaWeather: Weather := Weather(22, "Partly cloudy", 65, 8)

  /** The demonstration weather, looked up by the lower-cased city name in an object literal:
      the four own entries, the inherited members under "constructor" and "__proto__", and
      Addis Ababa's entry for every other key. */
  function MockWeather(cityKey: string): Weather {
    if cityKey == "addis ababa" then AddisAbabaWeather
    else if cityKey == "dire dawa" then Weather(28, "Sunny", 45, 12)
    else if cityKey == "mekelle" then Weather(25, "Clear sky", 55, 6)
    else if cityKey == "bahir dar" then Weather(24, "Light rain", 75, 10)
    else if cityKey == "constructor" || cityKey == "__proto__" then Inherited
    else AddisAbabaWeather
  }

  /** `fetchWeather(city)`. */
  function FetchWeather(city: string, src: Sources): Weather {
    if src.weatherKey && src.weatherApi(city).Some? then src.weatherApi(city).value
    else MockWeather(ToLower(city))
  }

  /** Without a key or after an API failure the lookup is case-insensitive; "constructor" and
      "__proto__" find an inherited member, and any other city than the four known ones, the
      empty one included, gets the Addis Ababa entry. */
  lemma WeatherFallback(city: string, src: Sources)
    requires !src.weatherKey || src.weatherApi(city).None?
    ensures ToLower(city) !in ["addis ababa", "dire dawa", "mekelle", "bahir dar", "constructor", "__proto__"] ==>
      FetchWeather(city, src) == Weather(22, "Partly cloudy", 65, 8)
    ensures ToLower(city) in ["constructor", "__proto__"] ==> FetchWeather(city, src) == Inherited
    ensures ToLower(city) == "dire dawa" ==> FetchWeather(city, src) == Weather(28, "Sunny", 45, 12)
    ensures city == "" ==> FetchWeather(city, src) == AddisAbabaWeather
  {
  }

  /** "ADDIS ABABA" and "Addis Ababa" are looked up as the same city. */
  lemma WeatherLookupIgnoresCase(src: Sources)
    requires !src.weatherKey
    ensures FetchWeather("Mekelle", src) == FetchWeather("MEKELLE", src) == Weather(25, "Clear sky", 55, 6)
  {
    assert ToLower("Mekelle") == "mekelle";
    assert ToLower("MEKELLE") == "mekelle";
  }

  /** `fetchSports(category)`: the category is ignored and the fixed items returned. */
  function FetchSports(category: string, src: Sources): seq<SportsItem> {
    src.demo.sports
  }

  /** Memes and sports never call an API: both are the fixed lists, whatever the category. */
  lemma FixedListsIgnoreArguments(a: string, b: string, src: Sources)
    ensures FetchSports(a, src) == FetchSports(b, src) == src.demo.sports
    ensures FetchMemes(src) == src.demo.memes
  {
  }

  const MockSports: seq<SportsItem> := [
    SportsItem("Ethiopian Premier League: St. " +
               "George FC Wins Championship",
               "St. George FC has clinched the " +
               "Ethiopian Premier League title " +
               "for the 30th time after a " +
               "decisive 2-1 victory over " +
               "Ethiopia Coffee FC in the final " +
               "match of the season.",
               "https://example.com/sports/premier-league"),
    SportsItem("Ethiopian Athletes Dominate " +
               "Berlin Marathon",
               "Ethiopian runners secured the " +
               "top three positions in both " +
               "men's and women's categories at " +
               "the prestigious Berlin " +
               "Marathon, continuing the " +
               "country's dominance in " +
               "long-distance running.",
               "https://example.com/sports/berlin-marathon"),
    SportsItem("Haile Gebrselassie Opens New " +
               "Athletics Training Center",
               "Ethiopian running legend Haile " +
               "Gebrselassie has inaugurated a " +
               "state-of-the-art athletics " +
               "training center in Addis Ababa " +
               "to nurture the next generation " +
               "of Ethiopian runners.",
               "https://example.com/sports/training-center"),
    SportsItem("Ethiopian National Football " +
               "Team Qualifies for AFCON",
               "The Ethiopian national football " +
               "team has secured qualification " +
               "for the Africa Cup of Nations " +
               "after a thrilling 1-0 victory " +
               "over their regional rivals.",
               "https://example.com/sports/afcon-qualification"),
    SportsItem("Young Ethiopian Boxer Wins " +
               "International Championship",
               "19-year-old Ethiopian boxer " +
               "Dawit Tekle has won the " +
               "international youth boxing " +
               "championship, bringing pride to " +
               "the nation and promising a " +
               "bright future for Ethiopian " +
               "boxing.",
               "https://example.com/sports/boxing-championship")
  ]

  /** One API trend: a null or zero tweet count becomes 0, and the link searches for the
      URI-encoded trend. */
  function TrendOf(t: RawTrend, encodeUri: string -> string): Trend {
    Trend(t.trend, t.tweetCount.GetOr(0), "https://twitter.com/search?q=" + encodeUri(t.trend))
  }

  /** `fetchSocialMedia()`. */
  function FetchSocialMedia(src: Sources): seq<Trend> {
    if src.socialKey then
      match src.socialApi
      case Failed => src.demo.trends
      case Body(None) => []
      case Body(Some(xs)) => seq(|xs|, k requires 0 <= k < |xs| => TrendOf(xs[k], src.encodeUri))
    else src.demo.trends
  }

  /** Without a token or after an API failure the trends are the fixed ones; on the API path
      every trend is kept with its topic, and a missing count reads as 0. */
  lemma SocialFallback(src: Sources)
    ensures (!src.socialKey || src.socialApi.Failed?) ==> FetchSocialMedia(src) == src.demo.trends
    ensures src.socialKey && src.socialApi.Body? && src.socialApi.items.Some? ==>
      var xs := src.socialApi.items.value;
      |FetchSocialMedia(src)| == |xs| &&
      forall k | 0 <= k < |xs| ::
        FetchSocialMedia(src)[k].topic == xs[k].trend &&
        (xs[k].tweetCount.None? ==> FetchSocialMedia(src)[k].count == 0)
  {
  }

  const MockTrends: seq<Trend> := [
    Trend("#EthiopianCuisine", 15420, "https://twitter.com/hashtag/EthiopianCuisine"),
    Trend("#AddisAbaba", 12350, "https://twitter.com/hashtag/AddisAbaba"),
    Trend("#EthiopianMusic", 9870, "https://twitter.com/hashtag/EthiopianMusic"),
    Trend("#Timket2024", 8640, "https://twitter.com/hashtag/Timket2024"),
    Trend("#EthiopianAirlines", 7230, "https://twitter.com/hashtag/EthiopianAirlines"),
    Trend("#EthiopianCoffee", 6890, "https://twitter.com/hashtag/EthiopianCoffee"),
    Trend("#Lalibela", 5670, "https://twitter.com/hashtag/Lalibela"),
    Trend("#EthiopianCulture", 4950, "https://twitter.com/hashtag/EthiopianCulture"),
    Trend("#VisitEthiopia", 4320, "https://twitter.com/hashtag/VisitEthiopia"),
    Trend("#EthiopianFashion", 3780, "https://twitter.com/hashtag/EthiopianFashion")
  ]
}
