/** The checkout form: the client-side check, the payload sent to POST /create and the
    reset after a successful post. */
module AgentInfo {
  import opened Common
  import opened Text
  import opened OrderModel
  import opened CartContext
  import opened OrdersRoute

  /** What `sendOrder` did: stopped at the client check, or posted the payload with the
      server's answer. */
  datatype SendOutcome = NotSent | Sent(payload: CreateRequest, accepted: bool)

  /** `!agentName.trim() || !magazinName.trim()` stops the send; the other fields are not checked. */
  predicate ClientAccepts(agentName: string, magazinName: string) {
    Trim(agentName) != "" && Trim(magazinName) != ""
  }

  /** The body of the post: the items and the five texts as typed, untrimmed, and the signature. */
  function Payload(items: seq<LineItem>, agentName: string, magazinName: string, cui: string,
                   address: string, responsiblePerson: string, signature: string): (r: CreateRequest)
    ensures r.items == Some(items)
    ensures r.agentName == Some(agentName) && r.magazinName == Some(magazinName) && r.cui == Some(cui)
    ensures r.address == Some(address) && r.responsiblePerson == Some(responsiblePerson)
    ensures r.signature == Some(signature)
  {
    CreateRequest(Some(items), Some(agentName), Some(magazinName), Some(cui), Some(address),
                  Some(responsiblePerson), Some(signature))
  }

  /** For a form the client lets through, the server's field check passes the payload exactly
      when the items are non-empty and the four texts the client does not check are non-empty. */
  lemma SentPayloadFields(items: seq<LineItem>, agentName: string, magazinName: string, cui: string,
                          address: string, responsiblePerson: string, signature: string)
    requires ClientAccepts(agentName, magazinName)
    ensures FieldsPresent(Payload(items, agentName, magazinName, cui, address, responsiblePerson, signature))
            <==> |items| > 0 && cui != "" && address != "" && responsiblePerson != "" && signature != ""
  {
  }

  /** The client sends what the server rejects: an empty CUI, address, responsible person or
      signature (here, an order with only the two names filled in). */
  lemma ClientLetsThroughMissingFields(items: seq<LineItem>)
    requires |items| > 0
    ensures ClientAccepts("Ana", "Mega")
    ensures !FieldsPresent(Payload(items, "Ana", "Mega", "", "", "", ""))
  {
    assert Trim("Ana") == "Ana" by {
      assert TrimStart("Ana") == "Ana";
      assert TrimEnd("Ana") == "Ana";
    }
    assert Trim("Mega") == "Mega" by {
      assert TrimStart("Mega") == "Mega";
      assert TrimEnd("Mega") == "Mega";
    }
  }

  /** And the client stops a name of blanks that the server would accept. */
  lemma ClientStopsBlankName()
    ensures !ClientAccepts(" ", "Mega")
    ensures FieldsPresent(Payload([LineItem(Some("p"), Some("Apa"), None, None, None, None, None, None)], " ", "Mega", "1", "a", "r", "s"))
  {
    assert Trim(" ") == "" by {
      assert TrimStart(" ") == "";
    }
  }

  /** The form state: five text inputs and the signature canvas (`None` while it is empty). */
  class Form {
    var agentName: string
    var magazinName: string
    var cui: string
    var address: string
    var responsiblePerson: string
    var canvas: Option<string>

    constructor ()
      ensures agentName == "" && magazinName == "" && cui == "" && address == ""
      ensures responsiblePerson == "" && canvas.None?
    {
      agentName, magazinName, cui, address, responsiblePerson := "", "", "", "", "";
      canvas := None;
    }

    /** `signatureData`: the canvas's image, or "" while the canvas is empty. */
    function Signature(): string
      reads this
    {
      canvas.GetOr("")
    }

    /** `sendOrder`. `items` is the location state's items (`|| []`); `postOk` is whether the post
        succeeded. On success the five texts and the canvas are cleared and the cart is emptied;
        otherwise nothing changes. */
    method SendOrder(items: Option<seq<LineItem>>, cart: Cart, postOk: bool) returns (outcome: SendOutcome)
      requires cart.Valid()
      modifies this, cart
      ensures cart.Valid()
      ensures !ClientAccepts(old(agentName), old(magazinName)) ==> outcome == NotSent
      ensures ClientAccepts(old(agentName), old(magazinName)) ==>
                outcome == Sent(Payload(items.GetOr([]), old(agentName), old(magazinName), old(cui),
                                        old(address), old(responsiblePerson), old(canvas).GetOr("")), postOk)
      ensures outcome.Sent? && postOk ==>
                agentName == "" && magazinName == "" && cui == "" && address == ""
                && responsiblePerson == "" && canvas.None?
                && cart.cart == [] && cart.products == old(cart.products)
                && cart.productsStock == old(cart.productsStock)
      ensures !(outcome.Sent? && postOk) ==>
                agentName == old(agentName) && magazinName == old(magazinName) && cui == old(cui)
                && address == old(address) && responsiblePerson == old(responsiblePerson)
                && canvas == old(canvas) && cart.cart == old(cart.cart)
                && cart.products == old(cart.products) && cart.productsStock == old(cart.productsStock)
    {
      if !ClientAccepts(agentName, magazinName) {
        return NotSent;
      }
      var signatureData := Signature();
      var data := Payload(items.GetOr([]), agentName, magazinName, cui, address, responsiblePerson, signatureData);
      outcome := Sent(data, postOk);
      if postOk {
        agentName := "";
        magazinName := "";
        cui := "";
        address := "";
        responsiblePerson := "";
        canvas := None;
        cart.Clear();
      }
    }
  }
}
