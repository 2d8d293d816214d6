/** Pure record helpers of the admin screens: create a product from a draft,
    the empty drafts, one-field updates, and adding or removing a discount tier. */
module AdminUtils {
  import opened Shop

  /** The draft part of a product: everything but its id. */
  function DataOf(p: Product): ProductData {
    ProductData(p.name, p.price, p.stock, p.discounts)
  }

  /** createProduct: the draft with an id added. The id is generated from the
      clock (`p${Date.now()}`); here it is a parameter. */
  function CreateProduct(data: ProductData, id: string): (r: Product)
    ensures r.id == id && DataOf(r) == data
  {
    Product(id, data.name, data.price, data.stock, data.discounts)
  }

  /** getInitialProductState: the empty draft. */
  function InitialProductState(): (r: ProductData)
    ensures r.name == "" && r.price == 0.0 && r.stock == 0 && r.discounts == []
  {
    ProductData("", 0.0, 0, [])
  }

  /** getInitialDiscountState: the empty tier. */
  function InitialDiscountState(): (r: Discount)
    ensures r.quantity == 0 && r.rate == 0.0
  {
    Discount(0, 0.0)
  }

  /** The fields of a product, named as `keyof Product`. */
  datatype Field = IdField | NameField | PriceField | StockField | DiscountsField

  /** A value for one field, tagged with that field. */
  datatype FieldValue =
    | IdValue(id: string)
    | NameValue(name: string)
    | PriceValue(price: real)
    | StockValue(stock: int)
    | DiscountsValue(discounts: seq<Discount>)

  function FieldOf(v: FieldValue): Field {
    match v
    case IdValue(_) => IdField
    case NameValue(_) => NameField
    case PriceValue(_) => PriceField
    case StockValue(_) => StockField
    case DiscountsValue(_) => DiscountsField
  }

  /** Reads one field of a product. */
  function Get(p: Product, f: Field): (v: FieldValue)
    ensures FieldOf(v) == f
  {
    match f
    case IdField => IdValue(p.id)
    case NameField => NameValue(p.name)
    case PriceField => PriceValue(p.price)
    case StockField => StockValue(p.stock)
    case DiscountsField => DiscountsValue(p.discounts)
  }

  /** updateProductField: a copy of the product with one named field replaced. */
  function UpdateProductField(p: Product, v: FieldValue): (r: Product)
    ensures Get(r, FieldOf(v)) == v
    ensures forall f :: f != FieldOf(v) ==> Get(r, f) == Get(p, f)
  {
    match v
    case IdValue(id) => p.(id := id)
    case NameValue(name) => p.(name := name)
    case PriceValue(price) => p.(price := price)
    case StockValue(stock) => p.(stock := stock)
    case DiscountsValue(discounts) => p.(discounts := discounts)
  }

  /** Writing back the value a field already has changes nothing. */
  lemma UpdateWithSameValueIsNoOp(p: Product, f: Field)
    ensures UpdateProductField(p, Get(p, f)) == p
  {
  }

  /** The unit test: renaming a product gives that product with the new name. */
  lemma UpdateNameScenario()
    ensures var p1 := Product("p1", "product 1", 10000.0, 20, [Discount(10, 0.1)]);
            UpdateProductField(p1.(name := "updated product"), NameValue("updated product"))
            == p1.(name := "updated product")
  {
  }

  /** addDiscountToProduct: the tier is appended; nothing else changes. */
  function AddDiscountToProduct(p: Product, discount: Discount): (r: Product)
    ensures r.discounts == p.discounts + [discount]
    ensures r.(discounts := p.discounts) == p
  {
    p.(discounts := p.discounts + [discount])
  }

  /** `filter((_, i) => i !== index)`: every element but the one at `index`. */
  function DropIndex<T>(s: seq<T>, index: int): (r: seq<T>)
    ensures 0 <= index < |s| ==> r == s[..index] + s[index + 1..]
    ensures !(0 <= index < |s|) ==> r == s
  {
    if s == [] then []
    else (if index == 0 then [] else [s[0]]) + DropIndex(s[1..], index - 1)
  }

  /** removeDiscountFromProduct: the tier at that position is deleted (an
      out-of-range position deletes nothing); nothing else changes. */
  function RemoveDiscountFromProduct(p: Product, indexToRemove: int): (r: Product)
    ensures 0 <= indexToRemove < |p.discounts| ==>
              r.discounts == p.discounts[..indexToRemove] + p.discounts[indexToRemove + 1..]
    ensures 0 <= indexToRemove < |p.discounts| ==> |r.discounts| == |p.discounts| - 1
    ensures !(0 <= indexToRemove < |p.discounts|) ==> r == p
    ensures r.(discounts := p.discounts) == p
  {
    p.(discounts := DropIndex(p.discounts, indexToRemove))
  }

  /** Removing the tier just appended gives back the original product. */
  lemma AddThenRemoveLast(p: Product, discount: Discount)
    ensures RemoveDiscountFromProduct(AddDiscountToProduct(p, discount), |p.discounts|) == p
  {
  }
}
