/** The product store: four collections, replaced wholesale by the fetch
    actions and updated by the patch and delete actions. Each network call
    is represented by the reply it produced, given as a parameter. */
module Store {
  import opened Wrappers
  import opened JsValues
  import opened Entities
  import opened Normalizer
  import opened Updates

  /** How deleteAllProducts ended: the user declined the confirmation, the
      backend refused (the action throws), or every product was deleted. */
  datatype DeleteAllOutcome = Cancelled | Rejected | Deleted

  class ProductStore {
    var groups: seq<Group>
    var promotions: seq<Promotion>
    var categories: seq<Category>
    var products: seq<Record>

    /** The store's initial state: every collection empty. */
    constructor ()
      ensures groups == [] && promotions == [] && categories == [] && products == []
    {
      groups, promotions, categories, products := [], [], [], [];
    }

    /** fetchGroups: the listing replaces the groups; a failure is logged
        and leaves them as they were. */
    method FetchGroups(reply: Reply<seq<Group>>)
      modifies this
      ensures groups == (if reply.Ok? then reply.body else old(groups))
      ensures promotions == old(promotions) && categories == old(categories)
      ensures products == old(products)
    {
      if reply.Ok? {
        groups := reply.body;
      }
    }

    /** fetchCategories: as fetchGroups, for the categories. */
    method FetchCategories(reply: Reply<seq<Category>>)
      modifies this
      ensures categories == (if reply.Ok? then reply.body else old(categories))
      ensures groups == old(groups) && promotions == old(promotions)
      ensures products == old(products)
    {
      if reply.Ok? {
        categories := reply.body;
      }
    }

    /** fetchPromotions: as fetchGroups, for the promotions. */
    method FetchPromotions(reply: Reply<seq<Promotion>>)
      modifies this
      ensures promotions == (if reply.Ok? then reply.body else old(promotions))
      ensures groups == old(groups) && categories == old(categories)
      ensures products == old(products)
    {
      if reply.Ok? {
        promotions := reply.body;
      }
    }

    /** fetchProducts: a successful listing is normalised record by record
        and replaces the products, keeping its length and order; a failed
        call, or a body the normalisation throws on, leaves them as they
        were. */
    method FetchProducts(js: Runtime, reply: Reply<Value>)
      modifies this
      ensures reply.Ok? && NormalizeAll(js, reply.body).Some? ==>
                && |products| == |reply.body.items|
                && forall i :: 0 <= i < |products| ==>
                     products[i] == Normalize(js, SpreadOf(reply.body.items[i]))
      ensures reply.Failed? || NormalizeAll(js, reply.body).None? ==> products == old(products)
      ensures groups == old(groups) && promotions == old(promotions)
      ensures categories == old(categories)
    {
      if reply.Ok? {
        var normalized := NormalizeAll(js, reply.body);
        if normalized.Some? {
          products := normalized.value;
        }
      }
    }

    /** fetchAll: the four fetches, each settling on its own; one failing
        does not keep the others from updating their collection. */
    method FetchAll(js: Runtime, groupsReply: Reply<seq<Group>>,
                    categoriesReply: Reply<seq<Category>>, productsReply: Reply<Value>,
                    promotionsReply: Reply<seq<Promotion>>)
      modifies this
      ensures groups == (if groupsReply.Ok? then groupsReply.body else old(groups))
      ensures categories == (if categoriesReply.Ok? then categoriesReply.body else old(categories))
      ensures promotions == (if promotionsReply.Ok? then promotionsReply.body else old(promotions))
      ensures products == (if productsReply.Ok? && NormalizeAll(js, productsReply.body).Some?
                           then NormalizeAll(js, productsReply.body).value else old(products))
    {
      FetchGroups(groupsReply);
      FetchCategories(categoriesReply);
      FetchProducts(js, productsReply);
      FetchPromotions(promotionsReply);
    }

    /** patchProduct: sends the translated payload; on success merges the
        server's record into every product with that id and returns it; on
        failure leaves the products as they were and returns nothing. */
    method PatchProduct(js: Runtime, id: real, updatedData: Record, reply: Reply<Value>)
      returns (payload: Record, updated: Option<Value>)
      modifies this
      ensures payload == WirePayload(js, updatedData)
      ensures "inStock" !in payload && "groupId" !in payload
      ensures reply.Ok? ==> updated == Some(reply.body)
                            && products == MergeById(old(products), id, SpreadOf(reply.body))
      ensures reply.Failed? ==> updated == None && products == old(products)
      ensures |products| == |old(products)|
      ensures groups == old(groups) && promotions == old(promotions)
      ensures categories == old(categories)
    {
      payload := WirePayload(js, updatedData);
      match reply
      case Failed =>
        updated := None;
      case Ok(body) =>
        products := MergeById(products, id, SpreadOf(body));
        updated := Some(body);
    }

    /** deleteProduct: on success removes every product with that id and
        keeps the rest in order; on failure changes nothing. */
    method DeleteProduct(id: real, ok: bool)
      modifies this
      ensures products == (if ok then DeleteById(old(products), id) else old(products))
      ensures forall p :: ok && p in products ==> !HasId(p, id)
      ensures groups == old(groups) && promotions == old(promotions)
      ensures categories == old(categories)
    {
      if ok {
        products := DeleteById(products, id);
      }
    }

    /** deleteAllProducts: asks for confirmation first; empties the products
        only when confirmed and the backend accepts. */
    method DeleteAllProducts(confirmed: bool, ok: bool) returns (outcome: DeleteAllOutcome)
      modifies this
      ensures outcome == (if !confirmed then Cancelled else if !ok then Rejected else Deleted)
      ensures products == (if outcome == Deleted then [] else old(products))
      ensures groups == old(groups) && promotions == old(promotions)
      ensures categories == old(categories)
    {
      if !confirmed {
        return Cancelled;
      }
      if !ok {
        return Rejected;
      }
      products := [];
      outcome := Deleted;
    }
  }

  /** The fetch-all scenario: groups load, promotions fail; the promotions
      keep what they had and the groups hold the listing. */
  method FetchAllScenario(js: Runtime, listing: seq<Group>)
    returns (store: ProductStore)
    ensures store.groups == listing && store.promotions == []
  {
    store := new ProductStore();
    store.FetchAll(js, Ok(listing), Failed, Failed, Failed);
  }
}
