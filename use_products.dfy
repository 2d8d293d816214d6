/** The product catalog state: the list of products, with replace-by-id and append. */
module UseProducts {
  import opened Shop

  /** `prev.map(p => p.id === updated.id ? updated : p)`. */
  function ReplaceById(products: seq<Product>, updated: Product): (r: seq<Product>)
    ensures |r| == |products|
    ensures forall i :: 0 <= i < |products| ==>
              r[i] == if products[i].id == updated.id then updated else products[i]
  {
    if products == [] then []
    else [if products[0].id == updated.id then updated else products[0]] + ReplaceById(products[1..], updated)
  }

  /** Updating an id that is not in the list changes nothing. */
  lemma ReplaceAbsentIsNoOp(products: seq<Product>, updated: Product)
    requires forall i :: 0 <= i < |products| ==> products[i].id != updated.id
    ensures ReplaceById(products, updated) == products
  {
  }

  /** Updating twice with the same record is the same as updating once. */
  lemma ReplaceIdempotent(products: seq<Product>, updated: Product)
    ensures ReplaceById(ReplaceById(products, updated), updated) == ReplaceById(products, updated)
  {
  }

  /** After an update, the updated record is in the list exactly where its id was. */
  lemma ReplacedIsPresent(products: seq<Product>, updated: Product, i: int)
    requires 0 <= i < |products| && products[i].id == updated.id
    ensures ReplaceById(products, updated)[i] == updated
    ensures updated in ReplaceById(products, updated)
  {
  }

  class Products {
    var products: seq<Product>

    /** useProducts: the list starts as the given one. */
    constructor (initialProducts: seq<Product>)
      ensures products == initialProducts
    {
      products := initialProducts;
    }

    /** updateProduct: every entry with the record's id is replaced by it. */
    method UpdateProduct(updatedProduct: Product)
      modifies this
      ensures products == ReplaceById(old(products), updatedProduct)
    {
      products := ReplaceById(products, updatedProduct);
    }

    /** addProduct: appended at the end; earlier entries stay. */
    method AddProduct(newProduct: Product)
      modifies this
      ensures products == old(products) + [newProduct]
      ensures |products| == |old(products)| + 1 && products[..|old(products)|] == old(products)
    {
      products := products + [newProduct];
    }
  }
}
