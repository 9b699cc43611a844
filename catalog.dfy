/**
 * The product catalog of useProducts.ts as values: the product record, the
 * seed catalog written on first run, and the list transforms behind
 * add, update, delete, lookup and the category listings.
 */
module Catalog {
  import opened Wrappers
  import opened Seqs
  import opened Sorting

  datatype ProductStatus = Active | Inactive

  /** A catalog entry; `rating` is display-only and not modelled. */
  datatype Product = Product(
    id: int,
    name: string,
    price: int,
    originalPrice: Option<int>,
    image: string,
    category: string,
    stock: int,
    status: ProductStatus,
    description: Option<string>,
    sales: Option<int>)

  /** What `addProduct` receives: a product without its id. */
  datatype ProductDraft = ProductDraft(
    name: string,
    price: int,
    originalPrice: Option<int>,
    image: string,
    category: string,
    stock: int,
    status: ProductStatus,
    description: Option<string>,
    sales: Option<int>)

  /** A `Partial<Product>`: each present field overrides the product's own. */
  datatype ProductPatch = ProductPatch(
    id: Option<int>,
    name: Option<string>,
    price: Option<int>,
    originalPrice: Option<int>,
    image: Option<string>,
    category: Option<string>,
    stock: Option<int>,
    status: Option<ProductStatus>,
    description: Option<string>,
    sales: Option<int>)

  /** A seed entry: every seeded product is active and has sold nothing. */
  function Seeded(id: int, name: string, price: int, originalPrice: Option<int>, image: string,
                  category: string, stock: int, description: Option<string>): (p: Product)
    ensures p.id == id && p.status == Active && p.sales == Some(0)
  {
    Product(id, name, price, originalPrice, image, category, stock, Active, description, Some(0))
  }

  /**
   * The catalog used when none is stored (`defaultProducts`): the products
   * with ids 1 to 20, in id order.
   */
  function Seed(): seq<Product> {
    [SeedProduct(1), SeedProduct(2), SeedProduct(3), SeedProduct(4), SeedProduct(5),
     SeedProduct(6), SeedProduct(7), SeedProduct(8), SeedProduct(9), SeedProduct(10),
     SeedProduct(11), SeedProduct(12), SeedProduct(13), SeedProduct(14), SeedProduct(15),
     SeedProduct(16), SeedProduct(17), SeedProduct(18), SeedProduct(19), SeedProduct(20)]
  }

  /**
   * The seed entry with the given id. Image references and descriptions
   * are named constants below.
   */
  function SeedProduct(id: int): (p: Product)
    requires 1 <= id <= 20
    ensures p.id == id && p.status == Active && p.sales == Some(0)
  {
    if id == 1 then
      Seeded(id, "时尚休闲外套", 299, Some(399), Image1, "穿搭", 50, Some(Description1))
    else if id == 2 then
      Seeded(id, "经典牛仔裤", 189, Some(229), Image2, "穿搭", 80, None)
    else if id == 3 then
      Seeded(id, "精选坚果礼盒", 128, Some(168), Image3, "美食", 100, None)
    else if id == 4 then
      Seeded(id, "有机蜂蜜", 89, Some(119), Image4, "美食", 60, None)
    else if id == 5 then
      Seeded(id, "北欧风桌椅", 79, Some(99), Image5, "居家", 120, None)
    else if id == 6 then
      Seeded(id, "智能台灯", 199, Some(259), Image6, "居家", 45, None)
    else if id == 7 then
      Seeded(id, "lamer护肤套装", 149, Some(199), Image7, "美妆", 80, Some(Description7))
    else if id == 8 then
      Seeded(id, "丝绒口红套装", 219, Some(279), Image8, "美妆", 90, None)
    else if id == 9 then
      Seeded(id, "nike专业跑步鞋", 399, Some(499), Image9, "运动", 70, None)
    else if id == 10 then
      Seeded(id, "瑜伽垫套装", 89, Some(129), Image10, "运动", 120, None)
    else if id == 11 then
      Seeded(id, "攀山鼠户外登山包", 329, Some(429), Image11, "户外", 40, Some(Description11))
    else if id == 12 then
      Seeded(id, "户外帐篷", 589, Some(699), Image12, "户外", 25, Some(Description12))
    else if id == 13 then
      Seeded(id, "无线蓝牙耳机", 299, Some(399), Image13, "数码", 100, Some(Description13))
    else if id == 14 then
      Seeded(id, "智能手表", 899, Some(1199), Image14, "数码", 60, Some(Description14))
    else if id == 15 then
      Seeded(id, "超清便携投影仪家庭影院无线投屏", 1299, Some(1699), Image15, "数码", 30, Some(Description15))
    else if id == 16 then
      Seeded(id, "多功能电动牙刷智能清洁", 199, Some(299), Image16, "数码", 80, Some(Description16))
    else if id == 17 then
      Seeded(id, "全自动扫地机器人智能规划吸尘拖地一体", 899, Some(1299), Image17, "居家", 40, Some(Description17))
    else if id == 18 then
      Seeded(id, "北欧风格落地灯简约现代客厅卧室灯具", 299, Some(399), Image18, "居家", 60, Some(Description18))
    else if id == 19 then
      Seeded(id, "补水保湿面膜贴深层滋养修护肌肤", 59, Some(99), Image19, "美妆", 200, Some(Description19))
    else
      Seeded(id, "多色眼影盘哑光珠光防水不晕染", 129, Some(169), Image20, "美妆", 120, Some(Description20))
  }

  // Long values are written as concatenations of pieces of at most 40
  // characters: the verifier handles short literals far more cheaply.
  const Image1: string :=
    "https://images.unsplash.com/photo-155123"
    + "2864-3f0890e580d9?w=400&h=400&fit=crop"
  const Description1: string := "时尚潮流，舒适休闲，适合各种场合穿搭的经典外套"
  const Image2: string :=
    "https://images.pexels.com/photos/6764708"
    + "/pexels-photo-6764708.jpeg?w=400&h=400&f"
    + "it=crop"
  const Image3: string :=
    "https://tse3-mm.cn.bing.net/th/id/OIP-C."
    + "ZBzEmqr90Au1zfiVvoR4mAHaHa?r=0&rs=1&pid="
    + "ImgDetMain"
  const Image4: string :=
    "https://th.bing.com/th/id/R.55d70b5b7364"
    + "5555418e74a93cebfafd?rik=Cppq7jPW2CTX0g&"
    + "riu=http%3a%2f%2fimg.11665.com%2fimg04_p"
    + "%2fi4%2fT1MDlbXcFCXXcPUlk2_044815.jpg&eh"
    + "k=aHbN094MC%2bO1HqSMnyP6BNQsyNoKdnhyAC9P"
    + "xEzLz3g%3d&risl=&pid=ImgRaw&r=0?w=400&h="
    + "400&fit=crop"
  const Image5: string :=
    "https://images.unsplash.com/photo-158602"
    + "3492125-27b2c045efd7?w=400&h=400&fit=cro"
    + "p"
  const Image6: string :=
    "https://cbu01.alicdn.com/img/ibank/2018/"
    + "434/179/9167971434_44817320.jpg"
  const Image7: string :=
    "https://imgservice.suning.cn/uimg1/b2c/i"
    + "mage/5yTesIS1mYEkNY4YqsOkyQ.jpg"
  const Description7: string := "滋养肌肤，让您拥有水润光泽的完美肌肤"
  const Image8: string :=
    "https://cbu01.alicdn.com/img/ibank/O1CN0"
    + "1g0xuHp1j8sbjDvlMq_!!3586514504-0-cib.jp"
    + "g"
  const Image9: string :=
    "https://pic4.zhimg.com/v2-51e8b7d397d8fc"
    + "55bb0b262e2dcad682_r.jpg"
  const Image10: string :=
    "https://img.alicdn.com/bao/uploaded/TB1Z"
    + "VALc5cKOu4jSZKbSuw19XXa.jpg"
  const Image11: string :=
    "https://th.bing.com/th/id/OIP.WpoukquHmo"
    + "4gM9Bm9vsAbQHaHa?rs=1&pid=ImgDetMain"
  const Description11: string := "这款攀山鼠户外登山包采用高强度防水面料，拥有多层收纳空间和人体工学背负系统，适合"
+ "长途徒步、露营、旅行等多种户外场景，轻便耐用，容量充足，是户外爱好者的理想选择。"
  const Image12: string :=
    "https://cbu01.alicdn.com/img/ibank/2018/"
    + "147/869/9223968741_2090806006.jpg"
  const Description12: string := "户外双层防雨帐篷，采用高密度防水面料和加固支架设计，抗风防雨，通风透气，搭建便捷"
+ "，适合三至四人家庭或朋友露营使用，带来舒适的户外居住体验。"
  const Image13: string :=
    "https://images.unsplash.com/photo-160684"
    + "1837239-c5a1a4a07af7?w=400&h=400&fit=cro"
    + "p"
  const Description13: string := "高品质音效，长续航，智能降噪，让您享受极致的音乐体验。这款无线蓝牙耳机支持多设备"
+ "连接，佩戴舒适，适合运动、通勤、学习等多种场景，带来沉浸式音乐享受。"
  const Image14: string :=
    "https://images.unsplash.com/photo-152327"
    + "5335684-37898b6baf30?w=400&h=400&fit=cro"
    + "p"
  const Description14: string := "这款智能手表集成心率监测、运动追踪、睡眠分析、消息提醒等多种功能，支持防水和蓝牙"
+ "通话，搭配高清触控屏幕和多种表盘选择，是健康生活与时尚穿搭的完美结合。"
  const Image15: string :=
    "https://th.bing.com/th/id/R.905d3dbc33d0"
    + "d9145c6b2f026e705ffc?rik=dMhZBEn%2br%2fC"
    + "1rg&riu=http%3a%2f%2fwww.happybate.com%2"
    + "fupload%2froom%2f1497004673.jpg&ehk=LgKD"
    + "l1p2HVp0vV28Ur%2bKjjS1cfmGeRsR7jdqhf6wcc"
    + "M%3d&risl=&pid=ImgRaw&r=0"
  const Description15: string := "这款超清便携投影仪支持无线投屏，高清画质，内置音响，适合家庭影院、会议演示和户外"
+ "露营，操作简单，携带方便。"
  const Image16: string :=
    "https://th.bing.com/th/id/OIP.DkNE1Or5bm"
    + "OjLeuKV4sBmQHaE0?rs=1&pid=ImgDetMain"
  const Description16: string := "智能定时提醒，强力清洁，长续航，IPX7级全身防水，呵护口腔健康，适合全家使用。"
  const Image17: string :=
    "https://x0.ifengimg.com/cmpp/fck/2019_36"
    + "/bc6ed7eeb9fcb2b_w2198_h1466.jpg"
  const Description17: string := "全自动智能扫地机器人，支持多种清扫模式，自动回充，强力吸尘，湿拖一体，解放双手，"
+ "居家必备。"
  const Image18: string :=
    "https://th.bing.com/th/id/OIP.IuwszYg88v"
    + "0ncy1CVS7-4AHaKt?rs=1&pid=ImgDetMain"
  const Description18: string := "北欧极简风格，柔和光线，适合客厅、卧室、书房等多种场景，提升家居格调。"
  const Image19: string :=
    "https://th.bing.com/th/id/R.9a29658d059b"
    + "7d2925468baa3fa68d5d?rik=8ufMO7k3hp%2bFI"
    + "g&riu=http%3a%2f%2f5b0988e595225.cdn.soh"
    + "ucs.com%2fimages%2f20170903%2f9d91254695"
    + "964b0db4875fe400068f6f.jpeg&ehk=HVhnpYsJ"
    + "5OhVPgpf5%2bGa6glEJdIOnPq7L5PMVeU5FyU%3d"
    + "&risl=&pid=ImgRaw&r=0"
  const Description19: string := "深层补水，持久保湿，修护肌肤屏障，适合各种肤质，令肌肤水润透亮。"
  const Image20: string :=
    "https://img.alicdn.com/i3/2208626100237/"
    + "O1CN01pq8X9I1DcaXRufix9_!!2208626100237."
    + "jpg"
  const Description20: string := "多色可选，粉质细腻，易晕染，持久不脱妆，适合各种妆容需求。"

  /** The seed has ids 1..20 in order, all active, none sold yet. */
  lemma SeedFacts()
    ensures |Seed()| == 20
    ensures forall i :: 0 <= i < |Seed()| ==> Seed()[i].id == i + 1
    ensures forall i :: 0 <= i < |Seed()| ==> Seed()[i].status == Active && Seed()[i].sales == Some(0)
  {
  }

  /** `(p.sales || 0)`: a missing counter reads as 0. */
  function SalesOrZero(p: Product): int {
    p.sales.GetOr(0)
  }

  /** Product ids are pairwise distinct. */
  ghost predicate DistinctIds(ps: seq<Product>) {
    forall i, j :: 0 <= i < j < |ps| ==> ps[i].id != ps[j].id
  }

  /** `Math.max(...ids, 0)`: the largest id, or 0 for an empty catalog or all-negative ids. */
  function MaxId(ps: seq<Product>): (r: int)
    ensures r >= 0
    ensures forall p :: p in ps ==> p.id <= r
    ensures r == 0 || exists p :: p in ps && p.id == r
  {
    if ps == [] then 0
    else
      var rest := MaxId(ps[1..]);
      assert forall p :: p in ps ==> p == ps[0] || p in ps[1..];
      if ps[0].id > rest then ps[0].id else rest
  }

  function WithId(d: ProductDraft, id: int): Product {
    Product(id, d.name, d.price, d.originalPrice, d.image, d.category, d.stock, d.status, d.description, d.sales)
  }

  /** `addProduct`: the draft, under id max+1, appended after the unchanged catalog. */
  function Added(ps: seq<Product>, d: ProductDraft): (r: seq<Product>)
    ensures |r| == |ps| + 1 && r[..|ps|] == ps
    ensures r[|ps|] == WithId(d, r[|ps|].id)
    ensures r[|ps|].id == MaxId(ps) + 1
    ensures forall p :: p in ps ==> p.id < r[|ps|].id
    ensures r[|ps|].id >= 1
  {
    ps + [WithId(d, MaxId(ps) + 1)]
  }

  /** Adding never produces a duplicate id. */
  lemma AddedKeepsIdsDistinct(ps: seq<Product>, d: ProductDraft)
    requires DistinctIds(ps)
    ensures DistinctIds(Added(ps, d))
  {
    var r := Added(ps, d);
    forall i, j | 0 <= i < j < |r| ensures r[i].id != r[j].id {
      if j == |ps| {
        assert r[i] == ps[i];
        assert ps[i] in ps;
      } else {
        assert r[i] == ps[i] && r[j] == ps[j];
      }
    }
  }

  /** `{ ...product, ...updates }`. */
  function Patch(p: Product, u: ProductPatch): Product {
    Product(
      u.id.GetOr(p.id),
      u.name.GetOr(p.name),
      u.price.GetOr(p.price),
      if u.originalPrice.Some? then u.originalPrice else p.originalPrice,
      u.image.GetOr(p.image),
      u.category.GetOr(p.category),
      u.stock.GetOr(p.stock),
      u.status.GetOr(p.status),
      if u.description.Some? then u.description else p.description,
      if u.sales.Some? then u.sales else p.sales)
  }

  /** `updateProduct`: same length and order; only products with the id are patched. */
  function Patched(ps: seq<Product>, id: int, u: ProductPatch): (r: seq<Product>)
    ensures |r| == |ps|
    ensures forall i :: 0 <= i < |ps| && ps[i].id == id ==> r[i] == Patch(ps[i], u)
    ensures forall i :: 0 <= i < |ps| && ps[i].id != id ==> r[i] == ps[i]
  {
    Map(ps, (p: Product) => if p.id == id then Patch(p, u) else p)
  }

  /** `deleteProduct`: exactly the products with another id remain. */
  function Deleted(ps: seq<Product>, id: int): (r: seq<Product>)
    ensures forall p :: p in r <==> p in ps && p.id != id
  {
    Filter(ps, (p: Product) => p.id != id)
  }

  /** Deleting keeps every other product as often as before, and in order across any split. */
  lemma DeletedExactly(ps: seq<Product>, qs: seq<Product>, id: int)
    ensures forall p :: multiset(Deleted(ps, id))[p] == if p.id != id then multiset(ps)[p] else 0
    ensures Deleted(ps + qs, id) == Deleted(ps, id) + Deleted(qs, id)
  {
    FilterMultiset(ps, (p: Product) => p.id != id);
    FilterConcat(ps, qs, (p: Product) => p.id != id);
  }

  /** The index of the first product with the id. */
  function IndexOfId(ps: seq<Product>, id: int): (r: Option<nat>)
    ensures r.None? <==> forall i :: 0 <= i < |ps| ==> ps[i].id != id
    ensures r.Some? ==> r.value < |ps| && ps[r.value].id == id
    ensures r.Some? ==> forall i :: 0 <= i < r.value ==> ps[i].id != id
  {
    if ps == [] then None
    else if ps[0].id == id then Some(0)
    else
      match IndexOfId(ps[1..], id)
      case None => None
      case Some(j) => Some(j + 1)
  }

  /** `getProductById`: the first product with the id, or nothing. */
  function ById(ps: seq<Product>, id: int): (r: Option<Product>)
    ensures r.None? <==> forall p :: p in ps ==> p.id != id
    ensures r.Some? ==> exists i :: 0 <= i < |ps| && ps[i] == r.value && r.value.id == id
                                    && forall j :: 0 <= j < i ==> ps[j].id != id
  {
    match IndexOfId(ps, id)
    case None => None
    case Some(i) => Some(ps[i])
  }

  /** `getProductsByCategory`: the active products, of one category unless it is "all". */
  function Listed(ps: seq<Product>, category: string): (r: seq<Product>)
    ensures forall p :: p in r <==> p in ps && p.status == Active && (category == "all" || p.category == category)
    ensures forall p ::
      multiset(r)[p] == if p.status == Active && (category == "all" || p.category == category) then multiset(ps)[p] else 0
  {
    if category == "all" then
      FilterMultiset(ps, (p: Product) => p.status == Active);
      Filter(ps, (p: Product) => p.status == Active)
    else
      FilterMultiset(ps, (p: Product) => p.category == category && p.status == Active);
      Filter(ps, (p: Product) => p.category == category && p.status == Active)
  }

  /** The listing keeps catalog order: listing a concatenation lists each part in turn. */
  lemma ListedKeepsOrder(ps: seq<Product>, qs: seq<Product>, category: string)
    ensures Listed(ps + qs, category) == Listed(ps, category) + Listed(qs, category)
  {
    if category == "all" {
      FilterConcat(ps, qs, (p: Product) => p.status == Active);
    } else {
      FilterConcat(ps, qs, (p: Product) => p.category == category && p.status == Active);
    }
  }

  /** `getSortedProductsByCategory`: the same listing, by sales descending, stably. */
  function RankedBySales(ps: seq<Product>, category: string): (r: seq<Product>)
    ensures |r| == |Listed(ps, category)|
  {
    SortDesc(Listed(ps, category), SalesOrZero)
  }

  /**
   * The ranking is the listing reordered: sorted by sales (missing read as 0),
   * a permutation, and products with equal sales keep their catalog order.
   */
  lemma RankedBySalesSpec(ps: seq<Product>, category: string)
    ensures SortedDesc(RankedBySales(ps, category), SalesOrZero)
    ensures multiset(RankedBySales(ps, category)) == multiset(Listed(ps, category))
    ensures forall v :: KeyFilter(RankedBySales(ps, category), SalesOrZero, v) == KeyFilter(Listed(ps, category), SalesOrZero, v)
  {
    SortDescSorted(Listed(ps, category), SalesOrZero);
    SortDescPermutation(Listed(ps, category), SalesOrZero);
    forall v ensures KeyFilter(RankedBySales(ps, category), SalesOrZero, v) == KeyFilter(Listed(ps, category), SalesOrZero, v) {
      SortDescStable(Listed(ps, category), SalesOrZero, v);
    }
  }
}
