/** The product catalog and its three queries (src/data/products.ts).
    The queries take the catalog as their first argument; `Products` is the
    seed the storefront passes. */
module Catalog {
  import opened Wrappers
  import opened Types
  import opened Seqs
  import opened Text

  /** The category sentinel meaning "no category filter". */
  const AllCategory := "All"

  /** The seed's image URLs: a Pexels photo id in the storefront's fixed size query. */
  function PexelsPhoto(photoId: string): string {
    "https://images.pexels.com/photos/" + photoId + "/pexels-photo-" + photoId + ".jpeg?auto=compress&cs=tinysrgb&w=1260&h=750&dpr=2"
  }

  const Products: seq<Product> := [
    Product(
      "1",
      "Premium Wireless Headphones",
      "Experience crystal-clear sound with our premium wireless headphones. These headphones feature active noise cancellation, Bluetooth 5.0 connectivity, and up to 30 hours of battery life.",
      29999,
      [ PexelsPhoto("577769"),
        PexelsPhoto("3394650"),
        PexelsPhoto("1649771") ],
      "Audio",
      ["wireless", "headphones", "bluetooth", "audio"],
      45,
      48,
      [ Review("r1", "u1", "Alex Thompson", 50, "These headphones are incredible! The sound quality is amazing, and the noise cancellation works perfectly.", "2023-11-15"),
        Review("r2", "u2", "Jamie Wilson", 40, "Great headphones, very comfortable for long listening sessions. Battery life is excellent.", "2023-10-28") ],
      map[
        "Driver Size" := "40mm",
        "Frequency Response" := "20Hz-20kHz",
        "Bluetooth Version" := "5.0",
        "Battery Life" := "Up to 30 hours",
        "Charging Time" := "2 hours",
        "Weight" := "250g"],
      "2023-08-10"),
    Product(
      "2",
      "Ultra-Slim Laptop",
      "A powerful, lightweight laptop for professionals on the go. Features a high-resolution display, all-day battery life, and the latest processors for optimal performance.",
      129999,
      [ PexelsPhoto("303383"),
        PexelsPhoto("5474295") ],
      "Computers",
      ["laptop", "computer", "ultrabook", "portable"],
      15,
      45,
      [ Review("r3", "u3", "Chris Johnson", 50, "This laptop is a game-changer for my workflow. Fast, lightweight, and the battery lasts all day.", "2023-11-02") ],
      map[
        "Processor" := "Intel Core i7",
        "RAM" := "16GB DDR4",
        "Storage" := "512GB SSD",
        "Display" := "14-inch 4K",
        "Graphics" := "Intel Iris Xe",
        "Battery" := "Up to 12 hours",
        "Weight" := "1.2kg"],
      "2023-09-05"),
    Product(
      "3",
      "Smart Home Security Camera",
      "Keep your home safe with our advanced security camera. Features include 4K recording, night vision, motion detection, and cloud storage.",
      14999,
      [ PexelsPhoto("3894387"),
        PexelsPhoto("6301168") ],
      "Smart Home",
      ["security", "camera", "smart home", "wifi"],
      30,
      42,
      [ Review("r4", "u4", "Pat Reynolds", 40, "Easy to set up and the app is intuitive. Image quality is good, even at night.", "2023-10-18"),
        Review("r5", "u5", "Morgan Kelly", 45, "Great camera with excellent features. The motion detection works really well.", "2023-09-30") ],
      map[
        "Resolution" := "4K Ultra HD",
        "Field of View" := "140\U{00C2}\U{00B0}",
        "Night Vision" := "Up to 30ft",
        "Storage" := "Cloud + Local SD",
        "Connectivity" := "Wi-Fi 6",
        "Power" := "Wired + Battery Backup"],
      "2023-07-22"),
    Product(
      "4",
      "Fitness Smartwatch",
      "Track your fitness goals with our advanced smartwatch. Monitors heart rate, sleep, steps, and includes GPS for outdoor activities.",
      19999,
      [ PexelsPhoto("437037"),
        PexelsPhoto("393047") ],
      "Wearables",
      ["smartwatch", "fitness", "health", "wearable"],
      25,
      46,
      [ Review("r6", "u6", "Taylor Smith", 50, "This watch has revolutionized my fitness routine. Accurate tracking and the battery lasts for days.", "2023-11-10") ],
      map[
        "Display" := "1.4\" AMOLED",
        "Battery Life" := "Up to 7 days",
        "Water Resistance" := "5ATM",
        "Sensors" := "Heart Rate, GPS, Accelerometer",
        "Compatibility" := "iOS, Android",
        "Connectivity" := "Bluetooth 5.0, Wi-Fi"],
      "2023-08-30"),
    Product(
      "5",
      "Professional Digital Camera",
      "Capture stunning images with our professional digital camera. Perfect for photographers of all levels with its intuitive controls and exceptional image quality.",
      89999,
      [ "https://images.pexels.com/photos/51383/photo-camera-subject-photographer-51383.jpeg?auto=compress&cs=tinysrgb&w=1260&h=750&dpr=2",
        PexelsPhoto("1203803") ],
      "Photography",
      ["camera", "photography", "digital", "professional"],
      10,
      49,
      [ Review("r7", "u7", "Jordan Casey", 50, "As a professional photographer, this camera exceeds all my expectations. The image quality is superb.", "2023-10-05"),
        Review("r8", "u8", "Riley Cooper", 45, "Great camera for both beginners and experienced photographers. Easy to use with professional results.", "2023-09-12") ],
      map[
        "Sensor" := "24.2MP Full-Frame CMOS",
        "ISO Range" := "100-51,200",
        "Video" := "4K 60fps",
        "Autofocus" := "693-point phase-detection",
        "Storage" := "Dual SD Card Slots",
        "Battery" := "Up to 750 shots"],
      "2023-06-15"),
    Product(
      "6",
      "Smart LED TV",
      "Immerse yourself in stunning 4K visuals with our Smart LED TV. Features include HDR support, built-in streaming apps, and voice control.",
      79999,
      [ PexelsPhoto("6782570"),
        PexelsPhoto("6976094") ],
      "Home Entertainment",
      ["tv", "smart tv", "4k", "entertainment"],
      20,
      47,
      [ Review("r9", "u9", "Casey Morgan", 50, "Picture quality is incredible, and the smart features work flawlessly. Very happy with this purchase.", "2023-11-08") ],
      map[
        "Display" := "55\" 4K UHD",
        "Resolution" := "3840 x 2160",
        "HDR" := "Dolby Vision, HDR10",
        "Smart Features" := "Built-in apps, Voice Control",
        "Ports" := "4x HDMI, 2x USB",
        "Audio" := "20W Dolby Atmos"],
      "2023-07-10")
  ]

  const Categories: seq<string> := [
    "All",
    "Audio",
    "Computers",
    "Smart Home",
    "Wearables",
    "Photography",
    "Home Entertainment"
  ]

  /** The seed data's own invariants: distinct ids, at least one image each, and every
      category listed after the sentinel. */
  lemma SeedCatalogWellFormed()
    ensures forall i, j :: 0 <= i < j < |Products| ==> Products[i].id != Products[j].id
    ensures forall i :: 0 <= i < |Products| ==> |Products[i].images| >= 1
    ensures forall i :: 0 <= i < |Products| ==> Products[i].category in Categories[1..]
  {
  }

  /** The category list starts with the sentinel and lists it nowhere else. */
  lemma CategoriesWellFormed()
    ensures |Categories| > 0 && Categories[0] == AllCategory
    ensures AllCategory !in Categories[1..]
  {
  }

  /** `getProductById`: the first product with this id, or none when no product has it. */
  function GetProductById(ps: seq<Product>, id: string): (r: Option<Product>)
    ensures r.None? <==> forall i :: 0 <= i < |ps| ==> ps[i].id != id
    ensures r.Some? ==> exists k :: 0 <= k < |ps| && ps[k] == r.value && r.value.id == id &&
                                    forall j :: 0 <= j < k ==> ps[j].id != id
  {
    match FindIndex(ps, (p: Product) => p.id == id)
    case None => None
    case Some(k) => Some(ps[k])
  }

  /** In a catalog with distinct ids, each product's id looks that product up. */
  lemma GetProductByIdFindsEach(ps: seq<Product>, k: nat)
    requires forall i, j :: 0 <= i < j < |ps| ==> ps[i].id != ps[j].id
    requires k < |ps|
    ensures GetProductById(ps, ps[k].id) == Some(ps[k])
  {
    FindIndexIs(ps, (p: Product) => p.id == ps[k].id, k);
  }

  /** `getProductsByCategory`: the whole catalog for the sentinel, otherwise exactly the
      products of that category, in catalog order. */
  function GetProductsByCategory(ps: seq<Product>, category: string): (r: seq<Product>)
    ensures category == AllCategory ==> r == ps
    ensures category != AllCategory ==> forall p :: p in r <==> p in ps && p.category == category
    ensures category != AllCategory ==>
      forall p :: multiset(r)[p] == if p.category == category then multiset(ps)[p] else 0
    ensures IsSubsequence(r, ps)
  {
    if category == AllCategory then
      SubsequenceReflexive(ps);
      ps
    else
      var keep := (p: Product) => p.category == category;
      FilterMultiset(ps, keep);
      FilterSubsequence(ps, keep);
      Filter(ps, keep)
  }

  /** The case-folded search test applied to one product. */
  predicate MatchesQuery(p: Product, lowercaseQuery: string) {
    Includes(ToLower(p.name), lowercaseQuery) ||
    Includes(ToLower(p.description), lowercaseQuery) ||
    exists i :: 0 <= i < |p.tags| && Includes(ToLower(p.tags[i]), lowercaseQuery)
  }

  /** `searchProducts`: in catalog order, exactly the products whose lower-cased name,
      description or some tag contains the lower-cased query. */
  function SearchProducts(ps: seq<Product>, query: string): (r: seq<Product>)
    ensures forall p :: p in r <==> p in ps && MatchesQuery(p, ToLower(query))
    ensures forall p :: multiset(r)[p] == if MatchesQuery(p, ToLower(query)) then multiset(ps)[p] else 0
    ensures IsSubsequence(r, ps)
  {
    var lowercaseQuery := ToLower(query);
    var keep := (p: Product) => MatchesQuery(p, lowercaseQuery);
    FilterMultiset(ps, keep);
    FilterSubsequence(ps, keep);
    Filter(ps, keep)
  }

  /** The empty query is contained in every string, so it matches every product. */
  lemma SearchEmptyQueryReturnsAll(ps: seq<Product>)
    ensures SearchProducts(ps, "") == ps
  {
    forall p | p in ps
      ensures MatchesQuery(p, ToLower(""))
    {
      IncludesEmpty(ToLower(p.name));
    }
    FilterKeepsAll(ps, (p: Product) => MatchesQuery(p, ToLower("")));
  }

  /** The search ignores the letter case of the query. */
  lemma SearchIgnoresQueryCase(ps: seq<Product>, query: string)
    ensures SearchProducts(ps, query) == SearchProducts(ps, ToLower(query))
  {
    ToLowerIdempotent(query);
  }

  /** Searching for a product's own name, in any letter case, finds that product. */
  lemma SearchFindsProductByName(ps: seq<Product>, p: Product, query: string)
    requires p in ps
    requires ToLower(query) == ToLower(p.name)
    ensures p in SearchProducts(ps, query)
  {
    IncludesItself(ToLower(p.name));
  }
}
