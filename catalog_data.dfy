/** The six Coles catalogs searched by the product resolver, entry for entry and in
    source order (constants.ts:71-206). Entries of the first four catalogs carry no
    brand; the bakery and dairy catalogs do. */
module CatalogData {
  import opened Types

  /** One row of a catalog: `{ name, price, size, brand?, imageUrl }`. */
  datatype CatalogItem = CatalogItem(
    name: string, price: real, size: string, imageUrl: string, brand: Option<string>)

  /** The six catalogs, named by the category their products are filed under. */
  datatype Catalogs = Catalogs(
    vegetables: seq<CatalogItem>,
    meat: seq<CatalogItem>,
    fruits: seq<CatalogItem>,
    seafood: seq<CatalogItem>,
    bakery: seq<CatalogItem>,
    dairy: seq<CatalogItem>)

  /** constants.ts:71-112 */
  function ColesVegetables(): seq<CatalogItem> {
    [
      CatalogItem("Cherry Tomatoes", 3.50, "250g", Unsplash("1546094096-0df4bcaaa337"), None),
      CatalogItem("Finest Dukkah Spiced Cauliflower Kit", 8.50, "895g", Unsplash("1568584711075-3d021a7c3ca3"), None),
      CatalogItem("Cucumbers Continental Loose", 1.50, "1 Each", Unsplash("1449300079323-02e209d9d3a6"), None),
      CatalogItem("Tomatoes Greenhouse Truss", 4.90, "approx. 130g", Unsplash("1592924357228-91a4daadcfea"), None),
      CatalogItem("Red Capsicum Loose", 2.20, "approx. 220g", Unsplash("1563565375-f3fdf5efa269"), None),
      CatalogItem("Broccoli Medium", 1.80, "approx. 340g", Unsplash("1584270354949-c26b0d5b4a0c"), None),
      CatalogItem("Loose Brown Onions", 0.90, "approx. 200g", Unsplash("1580201092675-a0a6a6cafbb1"), None),
      CatalogItem("Onions Red Local", 1.20, "approx. 200g", Unsplash("1618512496248-a07fe83aa8cb"), None),
      CatalogItem("Baby Broccoli", 2.50, "1 Bunch", Unsplash("1583663848850-46af132dc08e"), None),
      CatalogItem("Carrots", 1.50, "1Kg", Unsplash("1598170845058-32b9d6a5da37"), None),
      CatalogItem("Spring Onions", 1.80, "1 Bunch", Unsplash("1618881267493-27aa341fa34c"), None),
      CatalogItem("Garlic loose", 1.10, "approx. 60g", Unsplash("1615477095431-7e87366347f7"), None),
      CatalogItem("Potatoes Sweet Gold", 3.00, "approx. 500g", Unsplash("1596097635121-14b63b7a7c19"), None),
      CatalogItem("Green Zucchini", 1.40, "approx. 200g", Unsplash("1593006001098-b80894e489c6"), None),
      CatalogItem("Creme Gold Washed Potatoes Loose", 1.20, "approx. 150g", Unsplash("1518977676601-b53f82aba655"), None),
      CatalogItem("Lettuce Cos Baby Hearts", 3.50, "2 Pack", Unsplash("1622206151226-18ca2c9ab4a1"), None),
      CatalogItem("Glasshouse Grape Tomatoes", 4.00, "200g", Unsplash("1561136594-7f68413baa99"), None),
      CatalogItem("Baby Cucumbers", 3.50, "250g", Unsplash("1623851502476-d56262dc1407"), None),
      CatalogItem("Fresh Loose Cup Mushrooms", 4.50, "approx. 200g", Unsplash("1504445851494-b778736eb0db"), None),
      CatalogItem("Iceberg Lettuce", 2.80, "1 Each", Unsplash("1615485925694-a031e03b7d1e"), None),
      CatalogItem("Potatoes Washed", 4.00, "2kg", Unsplash("1508313880080-c4bef0730395"), None),
      CatalogItem("Lebanese Cucumbers", 1.80, "approx. 160g", Unsplash("1591196162299-d4529b489568"), None),
      CatalogItem("Brown Onions", 2.50, "1kg", Unsplash("1620574387735-3624d75b2dbc"), None),
      CatalogItem("Tomatoes Gourmet", 3.20, "approx. 130g", Unsplash("1518977956812-cd3dbadaaf31"), None),
      CatalogItem("Green Asparagus", 5.00, "1 each", Unsplash("1515471209610-dae1c92d8777"), None),
      CatalogItem("Family Broccolini", 4.50, "1 each", Unsplash("1628773822503-93d3813c6fdb"), None),
      CatalogItem("Capsicum Green Loose", 2.00, "approx. 220g", Unsplash("1596541613978-5a764d88e62f"), None),
      CatalogItem("Perino Entertainer Red Grape Tomatoes", 5.50, "350g", Unsplash("1607305387299-a67e4e10a693"), None),
      CatalogItem("Fresh Purple Eggplant", 3.00, "approx. 500g", Unsplash("1615286922573-45f8b9cb030a"), None),
      CatalogItem("Fresh Ginger Loose", 2.50, "approx. 130g", Unsplash("1615485290382-441e4d049cb5"), None),
      CatalogItem("Mini Asparagus", 4.00, "1 Pack", Unsplash("1550989460-0adf9ea622e2"), None),
      CatalogItem("Red Royale Potatoes Loose", 1.00, "approx. 170g", Unsplash("1566318990159-866810a08e03"), None),
      CatalogItem("Sweet Corn", 1.50, "1 Each", Unsplash("1551754655-cd27e38d2076"), None),
      CatalogItem("Cauliflower Medium", 3.50, "1 Each", Unsplash("1568584711275-3487202a27a9"), None),
      CatalogItem("Trimmed Celery Prepacked", 3.80, "1 Each", Unsplash("1610915662772-24cc42e47264"), None),
      CatalogItem("Fresh Celery Sticks Prepacked", 4.20, "300g", Unsplash("1610915662499-c4a04689036f"), None),
      CatalogItem("Sliced Mushrooms", 3.90, "200g", Unsplash("1555546589-3221975bb5b1"), None),
      CatalogItem("Green Beans Prepacked", 4.50, "375g", Unsplash("1551460395-92736413d80b"), None),
      CatalogItem("Kale Bunch Green", 3.50, "1 Each", Unsplash("1524179091875-bf99a9a6af57"), None),
      CatalogItem("Yellow Capsicum", 2.80, "approx. 220g", Unsplash("1613511871787-8d234c98c197"), None)
    ]
  }

  /** constants.ts:114-129 */
  function ColesMeat(): seq<CatalogItem> {
    [
      CatalogItem("No Added Hormone Beef Quick Cook Scotch Fillet Steak", 12.00, "170g", Unsplash("1600891964092-4316c288032e"), None),
      CatalogItem("Beef Scotch Steak Fillet 2 Pack", 26.00, "480g", Unsplash("1588347818621-34bd9f764a44"), None),
      CatalogItem("No Added Hormone Beef Porterhouse Steak With Thyme And Pepper Butter", 28.50, "500g", Unsplash("1619250914856-12a9e224cd26"), None),
      CatalogItem("Beef Eye Fillet Steak", 32.00, "450g", Unsplash("1558030006-450671960d72"), None),
      CatalogItem("No Added Hormone Beef Porterhouse Steak 2 Pack", 25.00, "450g", Unsplash("1603048297172-c92544798d5e"), None),
      CatalogItem("Beef Eye Fillet Steak Small Pack", 18.00, "300g", Unsplash("1504973960431-1c46b84542d5"), None),
      CatalogItem("Graze Grassfed Beef New York Strip Steak", 22.00, "380g", Unsplash("1600891964092-4316c288032e"), None),
      CatalogItem("Graze Grassfed Beef Scotch Fillet Steak", 16.50, "250g", Unsplash("1544378730-8b5104b1378b"), None),
      CatalogItem("Beef Chuck Casserole Steak", 19.50, "850g", Unsplash("1534939561126-855b8675edd7"), None),
      CatalogItem("Finest Carbon Neutral Beef Scotch Fillet Steak", 24.00, "375g", Unsplash("1551028150-64b9f398f678"), None),
      CatalogItem("No Added Hormone Beef Quick Cook Porterhouse Steak", 14.00, "180g", Unsplash("1607623814075-e51df1bdc82f"), None),
      CatalogItem("Beef Gravy", 8.00, "800g", Unsplash("1603048588665-791ca8aea617"), None),
      CatalogItem("Beef Sizzle Steak", 15.00, "400g", Unsplash("1588168333986-5078d3ae3976"), None),
      CatalogItem("No Added Hormone Beef Rump Medallions", 18.00, "300g", Unsplash("1615937657715-bc7b4b7962c1"), None)
    ]
  }

  /** constants.ts:131-160 */
  function ColesFruits(): seq<CatalogItem> {
    [
      CatalogItem("Blackberries", 5.00, "125g", Unsplash("1596591606975-97ee5cef3a1e"), None),
      CatalogItem("Raspberries", 4.00, "125g", Unsplash("1577009315570-5b583279147a"), None),
      CatalogItem("Pink Lady Apples Medium", 1.50, "approx. 200g", Unsplash("1570913149827-d2ac84ab3f9a"), None),
      CatalogItem("R2e2 Mangoes", 3.00, "1 Each", Unsplash("1601493700631-2b16ec4b4716"), None),
      CatalogItem("Eureka Blueberries Premium", 6.50, "200g", Unsplash("1498557850523-fd3d118b962e"), None),
      CatalogItem("Lemons", 2.00, "1 Each", Unsplash("1595855709915-f761a2517830"), None),
      CatalogItem("Medium Calypso Mangoes", 2.70, "1 Each", Unsplash("1553279768-865429fa0078"), None),
      CatalogItem("Hass Avocados", 2.00, "1 Each", Unsplash("1523049673856-3eb43db958cd"), None),
      CatalogItem("Limes Medium Loose", 1.80, "1 each", Unsplash("1594313016519-640ed4744312"), None),
      CatalogItem("Green Kiwifruit", 1.20, "1 Each", Unsplash("1585059895524-72359e06138a"), None),
      CatalogItem("Bananas", 0.72, "approx. 180g", Unsplash("1587132137056-bfbf0166836e"), None),
      CatalogItem("Blueberries", 4.00, "170g", Unsplash("1498557850523-fd3d118b962e"), None),
      CatalogItem("Strawberries", 4.00, "250g", Unsplash("1464965911861-746a04b4bca6"), None),
      CatalogItem("Orange Navel", 1.05, "approx. 250g", Unsplash("1582979512210-99b6a53385f9"), None),
      CatalogItem("Seedless Watermelon Cut", 4.50, "approx. 1.8kg", Unsplash("1587049352846-4a222e784d38"), None),
      CatalogItem("Cherries Prepack", 7.00, "300g", Unsplash("1528821154947-1aa3d1b74941"), None),
      CatalogItem("White Seedless Grapes", 9.90, "approx. 1kg", Unsplash("1537640538965-1756e1f59227"), None),
      CatalogItem("Apple Granny Smith Medium", 0.83, "approx. 170g", Unsplash("1579613832125-5d34813cdf43"), None),
      CatalogItem("Yellow Nectarines", 0.47, "approx. 120g", Unsplash("1603051756185-1d4187c33748"), None),
      CatalogItem("Mandarins Afourer", 0.55, "approx. 130g", Unsplash("1621508654686-809f23efdabc"), None),
      CatalogItem("Topless Pineapple", 5.50, "1 each", Unsplash("1550258987-190a2d41a8ba"), None),
      CatalogItem("Pink Lady Apples", 7.50, "1kg", Unsplash("1630563451961-ac2ff2767cb5"), None),
      CatalogItem("White Nectarines", 0.58, "approx. 150g", Unsplash("1596229989932-a50352a420b7"), None),
      CatalogItem("Pear Packham", 1.18, "approx. 240g", Unsplash("1514756331096-242f20484696"), None),
      CatalogItem("Peaches Yellow", 0.59, "approx. 120g", Unsplash("1605197585662-588b39418b76"), None),
      CatalogItem("Rockmelon Whole", 3.50, "1 Each", Unsplash("1571575173772-bb32ec5e8b7f"), None),
      CatalogItem("Papaya Loose", 4.50, "1 each", Unsplash("1517260739337-6799d2df8a21"), None),
      CatalogItem("Pomegranate Medium", 5.50, "1 each", Unsplash("1518386407426-191c0a59b67f"), None)
    ]
  }

  /** constants.ts:162-176 */
  function ColesSeafood(): seq<CatalogItem> {
    [
      CatalogItem("Tasmanian Salmon Portions Skin On 4 Pack", 17.50, "460g", Unsplash("1599084993091-1e811e2f3a69"), None),
      CatalogItem("Tasmanian Salmon Portions Skin Off 4 Pack", 19.00, "460g", Unsplash("1519708227418-c8fd9a32b7a2"), None),
      CatalogItem("Deli Thawed Australian Cooked Black Tiger Prawns Extra Large", 9.75, "approx. 250g", Unsplash("1565680018434-b513d5e5fd47"), None),
      CatalogItem("Deli Fresh Tasmanian Salmon Portions Skin On", 6.80, "approx. 200g", Unsplash("1599084993091-1e811e2f3a69"), None),
      CatalogItem("Deli Australian Thawed Raw Extra Large Black Tiger Prawns", 6.50, "approx. 250g", Unsplash("1559058789-672da06263d8"), None),
      CatalogItem("Deli Thawed Basa Fillets", 1.80, "approx. 200g", Unsplash("1519708227418-c8fd9a32b7a2"), None),
      CatalogItem("Deli Thawed Barramundi Fillets", 6.30, "approx. 350g", Unsplash("1519708227418-c8fd9a32b7a2"), None),
      CatalogItem("Prawns Raw Peeled", 12.50, "260g", Unsplash("1623962520499-03f9808f1c99"), None),
      CatalogItem("Cooked Prawns With Cocktail Sauce", 11.00, "260g", Unsplash("1625944525533-4c2cbc887d50"), None),
      CatalogItem("Mussels In Oil", 1.70, "85g", Unsplash("1613564834361-9436948817d1"), None),
      CatalogItem("Seafood Sauce", 2.50, "230g", Unsplash("1607532941433-304659e8198a"), None),
      CatalogItem("Finest Double Smoked Salmon", 11.00, "150g", Unsplash("1585672840545-d8f9947814b1"), None),
      CatalogItem("Tasmanian Salmon Marinated Portions Teriyaki", 16.00, "325g", Unsplash("1467003909585-2f8a7270028d"), None)
    ]
  }

  /** constants.ts:178-190 */
  function ColesBakery(): seq<CatalogItem> {
    [
      CatalogItem("Finest Brown Butter & Jamaican Rum Fruit Mince Pies", 7.50, "350g", Unsplash("1607478900766-efe13248b125"), Some("Coles")),
      CatalogItem("Golden Crumpet Square 6 Pack", 5.00, "425g", Unsplash("1626127117565-d60a5d4d3d2c"), Some("Golden")),
      CatalogItem("Tip Top Muffins English Original", 6.40, "400g", Unsplash("1607958996333-41aef7caefaa"), Some("Tip Top")),
      CatalogItem("Tip Top Gourmet Bun 4 Pack", 4.70, "220g", Unsplash("1557022272-3c8c7d81216d"), Some("Tip Top")),
      CatalogItem("Slice X Chupa Balls Strawberry & Cream", 6.00, "160g", Unsplash("1598268121084-c3c7c8e5f324"), Some("Slice")),
      CatalogItem("Bakery Sponge Roll Mini Choc 6 Pack", 4.00, "250g", Unsplash("1589119908995-c6837fa14848"), Some("Coles")),
      CatalogItem("Bakery Vegemite Scroll", 2.75, "1 Each", Unsplash("1617065977533-3164a2f87a8b"), Some("Coles")),
      CatalogItem("Bakery Stonebaked White Sourdough Vienna", 4.50, "1 Each", Unsplash("1585478259715-876ac5d8d35a"), Some("Coles")),
      CatalogItem("Iced Donuts", 3.25, "6 pack", Unsplash("1551024709-8f23befc6f87"), Some("Coles")),
      CatalogItem("Bakery Indulgent Choc 40% Choc Chip Cookie", 3.00, "6 Pack", Unsplash("1499636138143-bd649043ce52"), Some("Coles")),
      CatalogItem("Bakery Hawaiian Pizza Roll", 3.50, "2 pack", Unsplash("1513104890138-7c749659a591"), Some("Coles"))
    ]
  }

  /** constants.ts:192-206 */
  function ColesDairy(): seq<CatalogItem> {
    [
      CatalogItem("Pauls Custard Vanilla", 5.20, "1kg", Unsplash("1563636619-e9143da7973b"), Some("Pauls")),
      CatalogItem("The Organic Milk Co Organic Mozzarella Shred", 6.00, "250g", Unsplash("1486297678162-eb2a19b0a32d"), Some("The Organic Milk Co")),
      CatalogItem("Riverina Haloumi", 5.80, "180g", Unsplash("1624806992098-1971788e5d95"), Some("Riverina")),
      CatalogItem("Primo Reserve Cheese Kransky", 4.90, "250g", Unsplash("1595486025265-27a3d3c73708"), Some("Primo")),
      CatalogItem("Devondale Regular Butter Blend", 7.50, "500g", Unsplash("1589985270826-4b7bb135bc9d"), Some("Devondale")),
      CatalogItem("Primo Reserve Ham Off The Bone Sliced Deli Meat", 5.50, "100g", Unsplash("1524182576066-10905c55c5fc"), Some("Primo")),
      CatalogItem("Arla Protein Pudding Chocolate", 3.00, "200g", Unsplash("1563805042-7684c019e1cb"), Some("Arla")),
      CatalogItem("Siggi's Yoghurt Pouch Strawberry", 1.35, "150g", Unsplash("1571212515416-f22354cbaf75"), Some("Siggi's")),
      CatalogItem("Surf Coast Cracking Good Ultimate Free Range Eggs 12 Pack", 7.00, "700g", Unsplash("1582722872445-44dc5f7e3c8f"), Some("Surf Coast")),
      CatalogItem("Yumi's Traditional Hommus Dip Dairy & Gluten Free", 4.50, "200g", Unsplash("1630409346824-4f0e7b04313d"), Some("Yumi's")),
      CatalogItem("Provedore Prosciutto", 7.50, "100g", Unsplash("1529563021893-cc83c992d75e"), Some("Provedore")),
      CatalogItem("Divine Classic Creme Caramel Dessert 2 pack", 4.00, "150g", Unsplash("1517424619713-1b9138407981"), Some("Divine")),
      CatalogItem("Black Swan Tzatziki Dip", 4.50, "200g", Unsplash("1634747997637-29013c77d61b"), Some("Black Swan"))
    ]
  }

  /** The catalog pictures: every entry's imageUrl is this address for its photo id. */
  function Unsplash(photo: string): string {
    "https://images.unsplash.com/photo-" + photo + "?auto=format&fit=crop&w=400"
  }

  /** The resolver's catalogs, in the order they are consulted. */
  function ColesCatalogs(): Catalogs {
    Catalogs(ColesVegetables(), ColesMeat(), ColesFruits(), ColesSeafood(), ColesBakery(), ColesDairy())
  }
}
