/**
 * The constant data of constants.tsx: the seed catalogue, the easter eggs,
 * and the logo's secret click counter.
 */
module Seed {
  import opened Wrappers
  import opened Seqs
  import opened Types
  import opened Catalog
  import opened Shop

  /**
   * `PRODUCTS` (constants.tsx:5-168). The long descriptions are left empty;
   * every other field is as in the catalogue, and a member the literal does
   * not set is `None`.
   */
  const PRODUCTS: seq<Product> := [
      Product("zk-001", "Mitsuri Kanroji 1/7 Scale Figure", "Demon Slayer", Figure, 14599, Some(17999), "",
        "https://encrypted-tbn1.gstatic.com/shopping?q=tbn:ANd9GcSJc4ZxmXEnWB6sIejC5Eq1xMFcXFJjKWNQlVpsxzxXYTTV8gjQdaikF8x2DMgExFraoyiHL0Ym2oPfYU6f9E0Ey_0cgi_pZNCRcyNnEh9zZGC7Uthfa5d-",
        Some("https://encrypted-tbn3.gstatic.com/shopping?q=tbn:ANd9GcQy30S-YSyRb6IK2M3kIzLyXfgAD-kapx-PzmcDdR7WBHit5VQNkkt3bLdvfoENDfpa3u9n1y0ZaPM6MFKHTZXifoWWvr8jDmsuJPsTgNQ"),
        None, None, Some(true), 5, None,
        Some(Specs(Some("High-Grade PVC/ABS"), Some("24cm (Height)"), Some("0.8kg"), Some("Aniplex Archival"), Some(Rare))), None),
      Product("zk-002", "Luffy Gear 5 Tech-Hoodie", "One Piece", Apparel, 5499, Some(7500), "",
        "https://m.media-amazon.com/images/I/71vWjWW-9UL._SY879_.jpg",
        Some("https://m.media-amazon.com/images/I/712M-nVEGrL._SY879_.jpg"),
        None, None, None, 50, None,
        Some(Specs(Some("480GSM French Terry"), Some("Oversized Fit (S-XXL)"), Some("1.2kg"), Some("Grand Line Gear"), Some(Epic))), None),
      Product("zk-003", "Sun God Nika Resin Statue", "One Piece", Figures, 25599, Some(32000), "",
        "https://www.kaihamastore.com/cdn/shop/files/16_d194bfe6-4d06-4f0e-a90f-2afdd9f1f69d.jpg?crop=center&height=1080&v=1757517988&width=1080",
        Some("https://www.kaihamastore.com/cdn/shop/files/15_034b78f6-0776-420a-b007-c77b3223fad6.jpg?crop=center&height=1080&v=1757517988&width=1080"),
        None, None, Some(true), 2, None,
        Some(Specs(Some("Polystone / Transparent Resin"), Some("40cm x 35cm x 35cm"), Some("4.5kg"), Some("Kaidou-Kuni Foundry"), Some(Zenith))), None),
      Product("zk-004", "Rengoku Kyojuro Flame Figure", "Demon Slayer", Figures, 19599, Some(22000), "",
        "https://m.media-amazon.com/images/I/51Ducm-CWBL.jpg",
        Some("https://m.media-amazon.com/images/I/51ZrQcZT15L.jpg"),
        None, None, Some(true), 5, None,
        Some(Specs(Some("PVC/Transparent ABS"), Some("18cm"), Some("0.5kg"), Some("Mugen District"), Some(Rare))), None),
      Product("zk-005", "Tengen Uzui Dual Cleavers", "Demon Slayer", Collectibles, 22599, Some(26000), "",
        "https://minikatana.com/cdn/shop/files/5F0A2585_e3a068ac-6fbf-46b7-b560-ee48de997b5e.jpg?v=1717707665",
        Some("https://minikatana.com/cdn/shop/files/5F0A2696_39d45fe2-af03-4774-8687-1f043b47fa3b.jpg?v=1717707671"),
        None, None, Some(true), 5, None,
        Some(Specs(Some("Metal Core / High-Density Resin"), Some("85cm per blade"), Some("3.2kg (Total)"), Some("Entertainment District"), Some(Epic))), None),
      Product("zk-006", "Roronoa Zoro's Black Enma", "One Piece", Collectibles, 23699, Some(28000), "",
        "https://minikatana.com/cdn/shop/products/5F0A9318.jpg?v=1717707572",
        Some("https://minikatana.com/cdn/shop/products/5F0A9297.jpg?v=1717707564"),
        None, None, Some(true), 10, None,
        Some(Specs(Some("Carbon Steel (Dull) / Wood"), Some("104cm"), Some("1.1kg"), Some("Wano Country"), Some(Zenith))), None),
      Product("zk-007", "Bandai Thousand Sunny Model Kit", "One Piece", Figures, 18200, Some(20000), "",
        "https://encrypted-tbn1.gstatic.com/shopping?q=tbn:ANd9GcRld6galW3iOl0PEYjFOatpyTOIC-Yocs50G1x7KwwQoBkdC-J3Ykwq3d-Y4tVkyEfv-LjUYr5a6rDMaRPnoqgbxdZaCRDDbg",
        Some("https://www.usagundamstore.com/cdn/shop/products/thousand-sunny-one-piece-grand-ship-collection-02.jpg?v=1698949969&width=1200"),
        None, None, None, 18, None,
        Some(Specs(Some("High-Grade Polystyrene"), Some("25cm"), Some("0.6kg"), Some("Water 7 Yards"), Some(Rare))), None),
      Product("zk-008", "Akatsuki Village Cloud Hoodie", "Naruto", Apparel, 3399, Some(4000), "",
        "https://m.media-amazon.com/images/I/61YI9YclDtL._SY879_.jpg",
        Some("https://m.media-amazon.com/images/I/61qjyswyYdL._SY879_.jpg"),
        None, None, None, 24, None,
        Some(Specs(Some("420GSM Fleece Cotton"), Some("S to 3XL"), Some("0.8kg"), Some("Amegakure Outer Walls"), Some(Common))), None),
      Product("zk-009", "Tanjiro: Hinokami Kagura Hoodie", "Demon Slayer", Apparel, 3499, Some(4000), "",
        "https://encrypted-tbn2.gstatic.com/shopping?q=tbn:ANd9GcTqLaazBQPMwysezkkrmj1LV7z7iOe5OVyWCc8A68IE115_XK5eqehQHBZeQZPomokltXfwKEzQU5oscmHe9eaJtpotkRLfDWzbYRI9X8Y",
        Some("https://encrypted-tbn0.gstatic.com/shopping?q=tbn:ANd9GcTpUIyl8Lq1XxQJ1vhsCunYo9QMzI4G_A06LA0e6oSskOBRksWG49umQq5elvqyWV_yzZJkmJ3oFgVf-EOuToRefZCbhEb0XugExihAzpU"),
        None, None, None, 23, None,
        Some(Specs(Some("Heavy French Terry"), Some("M to XXL"), Some("0.85kg"), Some("Mount Sagiri Labs"), Some(Rare))), None),
      Product("zk-010", "Goku Spirit Bomb Figure", "Dragon Ball Z", Figures, 46599, Some(50500), "",
        "https://i.etsystatic.com/60484128/r/il/5eed20/7593071952/il_1588xN.7593071952_kdeb.jpg",
        Some("https://i.etsystatic.com/60484128/r/il/413390/7593071950/il_1588xN.7593071950_797q.jpg"),
        None, None, None, 30, None,
        Some(Specs(Some("High-Impact PVC/LED"), Some("45cm (Total Height)"), Some("2.8kg"), Some("Capsule Corp HQ"), Some(Epic))), None),
      Product("zk-011", "Goku (The Flames) Wall Art", "Dragon Ball Z", Collectibles, 69599, Some(70500), "",
        "https://encrypted-tbn2.gstatic.com/shopping?q=tbn:ANd9GcTNp07nH-XDymzntVopBgrfcO9iOKsFigoYgZVjQsr860FojUrdhJx7qQtNkG_Ty3KZnGCBBp09f3Nq64EUEU7tI9NhV6F1TAmDwA_dyWj5",
        Some("https://encrypted-tbn3.gstatic.com/shopping?q=tbn:ANd9GcTV1im59bzUARQ4f04Dm3Tky4r-m_wesY0p9KYnIWP9zBUuuzd0VzV-0Zmlo9ZuAdhTfmzoumHb4UIXDOHSB4lDLmREytdipeZq2uflgjORQXtUjMTnROr5fg"),
        None, None, None, 15, None,
        Some(Specs(Some("Brushed Aluminum"), Some("60cm x 90cm"), Some("2.1kg"), Some("Satan City Archives"), Some(Zenith))), None),
      Product("zk-012", "Naruto Sage Mode Savior Statue", "Naruto", Figures, 45899, Some(50000), "",
        "https://m.media-amazon.com/images/I/71705Dlep2L._SX679_.jpg",
        Some("https://m.media-amazon.com/images/I/71XA0AUwQsL._SX679_.jpg"),
        None, None, Some(true), 9, None,
        Some(Specs(Some("PVC/ABS/Polystone"), Some("26cm"), Some("1.2kg"), Some("Mount Myoboku"), Some(Rare))), None)
  ]

  /** An easter egg: its id, the display name and the series it belongs to. */
  datatype Egg = Egg(id: string, name: string, anime: string)

  /** `Object.values(EASTER_EGGS)`, in declaration order (constants.tsx:221-233). */
  const EASTER_EGGS: seq<Egg> := [
      Egg("luffy", "Straw Hat Pirate Emblem", "One Piece"),  // LUFFY_HAT
      Egg("gojo", "Limitless Blindfold", "Jujutsu Kaisen"),  // GOJO_BLINDFOLD
      Egg("aot", "Wings of Freedom", "Attack on Titan"),  // SURVEY_WINGS
      Egg("tanjiro", "Hanafuda Earring", "Demon Slayer"),  // TANJIRO_EARRING
      Egg("pochita", "Chainsaw Devil Pull-string", "Chainsaw Man"),  // POCHITA
      Egg("naruto", "Nine-Tails Whisker Marks", "Naruto"),  // WHISKERS
      Egg("dbz", "4-Star Dragon Ball", "Dragon Ball"),  // FOUR_STAR
      Egg("spyfamily", "Peanut of Prophecy", "Spy x Family"),  // ANYA_PEANUT
      Egg("bleach", "Substitute Shinigami Badge", "Bleach"),  // SHINIGAMI_BADGE
      Egg("deathnote", "Shinigami Apple", "Death Note"),  // RYUK_APPLE
      Egg("jojo", "Menacing SFX (\U{30B4}\U{30B4}\U{30B4})", "Jojo's Bizarre Adventure")   // MENACING
  ]

  /** The number written in the last two digits of an id such as `zk-007`. */
  function IdNumber(id: string): int
    requires |id| == 6
  {
    (id[4] as int - '0' as int) * 10 + (id[5] as int - '0' as int)
  }

  /** The seed ids read `zk-001` to `zk-012`, in catalogue order. */
  lemma SeedIdsNumbered()
    ensures |PRODUCTS| == 12
    ensures forall i :: 0 <= i < |PRODUCTS| ==>
      |PRODUCTS[i].id| == 6 && PRODUCTS[i].id[..4] == "zk-0" && IdNumber(PRODUCTS[i].id) == i + 1
  {
  }

  /** No two seed products share an id. */
  lemma SeedIdsUnique()
    ensures UniqueProductIds(PRODUCTS)
  {
    SeedIdsNumbered();
    forall i, j | 0 <= i < j < |PRODUCTS| ensures PRODUCTS[i].id != PRODUCTS[j].id {
      assert IdNumber(PRODUCTS[i].id) != IdNumber(PRODUCTS[j].id);
    }
  }

  /** Every seed product is offered below (or at) a struck-through original price. */
  lemma SeedDiscounts()
    ensures forall i :: 0 <= i < |PRODUCTS| ==>
      PRODUCTS[i].originalPrice.Some? && PRODUCTS[i].price <= PRODUCTS[i].originalPrice.value
  {
  }

  /** Every seed product starts in stock. */
  lemma SeedInStock()
    ensures forall i :: 0 <= i < |PRODUCTS| ==> PRODUCTS[i].stock > 0
  {
  }

  /**
   * `zk-001` is filed under the spelling `Figure`: the `All` button shows it,
   * and none of the four category buttons does, whatever the other criteria.
   */
  lemma SeedFigureHidden(b: Category, c: Criteria)
    requires b in CategoryButtons && b != AllCategories && c.category == b.Name()
    ensures PRODUCTS[0].id == "zk-001" && PRODUCTS[0].category == Figure
    ensures !Matches(PRODUCTS[0], c)
    ensures Matches(PRODUCTS[0], c.(category := "All", series := "All", query := ""))
  {
    EmptyQueryMatchesAll(PRODUCTS[0]);
  }

  function EggId(e: Egg): string { e.id }

  /** There are eleven eggs and their ids are distinct. */
  lemma EggIdsDistinct()
    ensures |EASTER_EGGS| == 11
    ensures NoDups(Map(EASTER_EGGS, EggId))
  {
  }

  // ---------------------------------------------------------------------------
  // The logo (constants.tsx:170-212)

  /** The number of clicks that secrets the logo's secret. */
  const SecretClicks: int := 4

  /** The logo component's click counter. */
  class Logo {
    var clickCount: int

    ghost predicate Valid()
      reads this
    {
      0 <= clickCount < SecretClicks
    }

    constructor ()
      ensures Valid() && clickCount == 0
    {
      clickCount := 0;
    }

    /**
     * `handleClick`: the count goes up by one; the fourth click reports the
     * secret (the caller then runs `onSecretClick` when it has one) and
     * starts the count again from zero.
     */
    method Click() returns (secret: bool)
      requires Valid()
      modifies this
      ensures Valid()
      ensures secret <==> old(clickCount) == SecretClicks - 1
      ensures clickCount == if secret then 0 else old(clickCount) + 1
    {
      var newCount := clickCount + 1;
      clickCount := newCount;
      secret := newCount == SecretClicks;
      if secret {
        clickCount := 0;
      }
    }

    /** The two-second timer each click schedules: when it fires, the count is back to zero. */
    method TimerFires()
      requires Valid()
      modifies this
      ensures Valid() && clickCount == 0
    {
      clickCount := 0;
    }
  }

  /** Four clicks on a fresh logo, with no timer firing in between, reveal the secret on the last one only. */
  method FourQuickClicks() returns (secrets: seq<bool>)
    ensures secrets == [false, false, false, true]
  {
    var logo := new Logo();
    var a := logo.Click();
    var b := logo.Click();
    var c := logo.Click();
    var d := logo.Click();
    secrets := [a, b, c, d];
  }
}
