/** The records of the storefront (types.ts). Optional members are `Option`s. */
module Types {
  import opened Wrappers

  datatype UserRole = User | Admin {
    function Name(): string {
      match this
      case User => "user"
      case Admin => "admin"
    }
  }

  datatype Review = Review(id: string, userName: string, rating: int, comment: string, date: string)

  /** The six spellings a product's category may take. */
  datatype ProductCategory = Figures | Apparel | Accessories | Collectibles | Collection | Figure {
    function Name(): string {
      match this
      case Figures => "Figures"
      case Apparel => "Apparel"
      case Accessories => "Accessories"
      case Collectibles => "Collectibles"
      case Collection => "Collection"
      case Figure => "Figure"
    }
  }

  /** The shop's category filter: four categories and `All`. */
  datatype Category = AllCategories | FiguresOnly | ApparelOnly | AccessoriesOnly | CollectiblesOnly {
    function Name(): string {
      match this
      case AllCategories => "All"
      case FiguresOnly => "Figures"
      case ApparelOnly => "Apparel"
      case AccessoriesOnly => "Accessories"
      case CollectiblesOnly => "Collectibles"
    }
  }

  datatype Rarity = Common | Rare | Epic | Zenith

  datatype Specs = Specs(
    material: Option<string>,
    dimensions: Option<string>,
    weight: Option<string>,
    origin: Option<string>,
    rarity: Option<Rarity>)

  datatype Product = Product(
    id: string,
    name: string,
    series: string,
    category: ProductCategory,
    price: int,
    originalPrice: Option<int>,
    description: string,
    image: string,
    image2: Option<string>,
    images: Option<seq<string>>,
    videoUrl: Option<string>,
    isFeatured: Option<bool>,
    stock: int,
    features: Option<seq<string>>,
    specs: Option<Specs>,
    reviews: Option<seq<Review>>)

  /** A cart line: the product as it was when added, plus a quantity. */
  datatype CartItem = CartItem(product: Product, quantity: int) {
    function Id(): string { product.id }
  }

  datatype OrderStatus = Processing | Shipped | Delivered | Cancelled

  datatype Order = Order(
    id: string,
    date: string,
    items: seq<CartItem>,
    total: int,
    status: OrderStatus,
    paymentMethod: string,
    trackingNumber: string)

  datatype UserProfile = UserProfile(
    name: string,
    email: string,
    avatar: string,
    joinDate: string,
    loyaltyPoints: int,
    role: UserRole)

  /** No filter category carries the spellings `Figure` or `Collection`. */
  lemma CategorySpellingsOutsideFilter(c: Category)
    ensures c.Name() != Figure.Name() && c.Name() != Collection.Name()
  {
  }

  /** An absent review list and an empty one are different values. */
  lemma AbsentReviewsDiffer(p: Product)
    requires p.reviews == None
    ensures p != p.(reviews := Some([]))
  {
  }
}
