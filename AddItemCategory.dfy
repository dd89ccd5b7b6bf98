/** The add-item-category page: the second step of setting up a store. It
    reads the `userID` and `storeID` left in `localStorage` by the earlier
    steps and, on submit, refuses to send anything until a store exists. */
module AddItemCategory {
  import opened Browser

  /** The JSON body of `POST /api/add-item-category`. */
  datatype CategoryRequest = CategoryRequest(userID: string, itemType: string, storeID: string)

  /** `ItemTypeRequired` is the browser refusing to submit the form while
      the `required` item-type input is empty; `handleAddCategory` does not
      run then. */
  datatype SubmitOutcome = ItemTypeRequired | MissingStore | Added | Failed(alert: string)

  const SuccessText := "Item Category Added Successfully!"

  /** The alert for a failed request: `Error: ` and the thrown message,
      which for a non-ok reply is the body's `message` or a default. */
  function FailureAlert(reply: Reply): (alert: string)
    ensures reply.Threw? ==> alert == "Error: " + reply.reason
    ensures reply.Answered? && reply.message != "" ==> alert == "Error: " + reply.message
    ensures reply.Answered? && reply.message == "" ==> alert == "Error: Failed to add category"
  {
    match reply
    case Threw(reason) => "Error: " + reason
    case Answered(_, message) => "Error: " + MessageOr(message, "Failed to add category")
  }

  class AddItemCategoryPage {
    var itemType: string
    var userID: string
    var storeID: string
    var successMessage: string
    var sent: seq<CategoryRequest>  // bodies of the requests issued

    /** Every request issued names a store. */
    predicate Valid()
      reads this
    {
      forall i :: 0 <= i < |sent| ==> sent[i].storeID != ""
    }

    /** The four `useState("")` fields; nothing sent yet. */
    constructor ()
      ensures Valid()
      ensures itemType == "" && userID == "" && storeID == "" && successMessage == "" && sent == []
    {
      itemType, userID, storeID, successMessage := "", "", "", "";
      sent := [];
    }

    /** The mount effect: each of `userID` and `storeID` is taken from the
        cache when the cached value is truthy, and otherwise kept. */
    method Mount(cache: Cache)
      requires Valid()
      modifies this`userID, this`storeID
      ensures Valid()
      ensures userID == if CachedValue(cache, "userID") != "" then cache["userID"] else old(userID)
      ensures storeID == if CachedValue(cache, "storeID") != "" then cache["storeID"] else old(storeID)
    {
      var storedUserID := CachedValue(cache, "userID");
      var storedStoreID := CachedValue(cache, "storeID");
      if storedUserID != "" {
        userID := storedUserID;
      }
      if storedStoreID != "" {
        storeID := storedStoreID;
      }
    }

    /** The item-type input's `onChange`. */
    method EditItemType(value: string)
      requires Valid()
      modifies this`itemType
      ensures Valid()
      ensures itemType == value
    {
      itemType := value;
    }

    /** `handleAddCategory`: without a store nothing is sent; otherwise the
        current `{userID, itemType, storeID}` is sent and an ok reply shows
        the success message and clears the item type. */
    method HandleAddCategory(reply: Reply) returns (outcome: SubmitOutcome)
      requires Valid()
      modifies this`itemType, this`successMessage, this`sent
      ensures Valid()
      ensures old(storeID) == "" ==>
        outcome == MissingStore && sent == old(sent)
        && itemType == old(itemType) && successMessage == old(successMessage)
      ensures old(storeID) != "" ==> sent == old(sent) + [CategoryRequest(userID, old(itemType), storeID)]
      ensures old(storeID) != "" && reply.Answered? && reply.ok ==>
        outcome == Added && successMessage == SuccessText && itemType == ""
      ensures old(storeID) != "" && !(reply.Answered? && reply.ok) ==>
        outcome == Failed(FailureAlert(reply))
        && itemType == old(itemType) && successMessage == old(successMessage)
    {
      if storeID == "" {
        return MissingStore;
      }
      sent := sent + [CategoryRequest(userID, itemType, storeID)];
      if reply.Answered? && reply.ok {
        successMessage := SuccessText;
        itemType := "";
        outcome := Added;
      } else {
        outcome := Failed(FailureAlert(reply));
      }
    }

    /** Submitting the form: the browser's validation of the `required`
        item-type input comes first, then `handleAddCategory`. */
    method SubmitForm(reply: Reply) returns (outcome: SubmitOutcome)
      requires Valid()
      modifies this`itemType, this`successMessage, this`sent
      ensures Valid()
      ensures old(itemType) == "" ==>
        outcome == ItemTypeRequired && sent == old(sent)
        && itemType == old(itemType) && successMessage == old(successMessage)
      ensures old(itemType) != "" && old(storeID) == "" ==>
        outcome == MissingStore && sent == old(sent)
        && itemType == old(itemType) && successMessage == old(successMessage)
      ensures old(itemType) != "" && old(storeID) != "" ==>
        sent == old(sent) + [CategoryRequest(userID, old(itemType), storeID)]
      ensures old(itemType) != "" && old(storeID) != "" && reply.Answered? && reply.ok ==>
        outcome == Added && successMessage == SuccessText && itemType == ""
      ensures old(itemType) != "" && old(storeID) != "" && !(reply.Answered? && reply.ok) ==>
        outcome == Failed(FailureAlert(reply))
        && itemType == old(itemType) && successMessage == old(successMessage)
    {
      if itemType == "" {
        return ItemTypeRequired;
      }
      outcome := HandleAddCategory(reply);
    }
  }

  /** A page opened before any store was created: whatever the server
      would say, submitting sends nothing; with an item type typed, the page
      asks for a store first. */
  method SubmitWithoutStore(cache: Cache, typed: string, reply: Reply)
    returns (outcome: SubmitOutcome, sent: seq<CategoryRequest>)
    requires CachedValue(cache, "storeID") == ""
    ensures sent == []
    ensures outcome == if typed == "" then ItemTypeRequired else MissingStore
  {
    var page := new AddItemCategoryPage();
    page.Mount(cache);
    page.EditItemType(typed);
    outcome := page.SubmitForm(reply);
    sent := page.sent;
  }

  /** A page opened after the store step: a submit with an item type sends
      exactly the cached user, the typed item type and the cached store;
      one without an item type sends nothing. */
  method SubmitAfterStore(cache: Cache, typed: string, reply: Reply)
    returns (outcome: SubmitOutcome, sent: seq<CategoryRequest>)
    requires CachedValue(cache, "storeID") != ""
    ensures typed != "" ==>
      sent == [CategoryRequest(CachedValue(cache, "userID"), typed, CachedValue(cache, "storeID"))]
    ensures typed == "" ==> sent == [] && outcome == ItemTypeRequired
    ensures outcome == Added <==> typed != "" && reply.Answered? && reply.ok
  {
    var page := new AddItemCategoryPage();
    page.Mount(cache);
    page.EditItemType(typed);
    outcome := page.SubmitForm(reply);
    sent := page.sent;
  }
}
