/**
 * The categories page of src/pages/Categories.tsx: the category list, the
 * add/edit dialog with its form, and the delete confirmation. It talks to
 * the backend through the instance of src/config/api.ts, so every failure
 * it sees is already normalised. Paths are relative to that instance's
 * base URL.
 */
module Categories {
  import opened Util
  import opened Http
  import opened Notice
  import opened ApiConfig

  datatype Category = Category(id: string, name: string, description: string)

  datatype Form = Form(name: string, description: string)

  const EmptyForm := Form("", "")

  const ListRequest := Request(GET, "/categories")
  const NoDataMessage := "No data received from server"

  /**
   * `error.response?.data?.error || error.message || 'Unknown error'` on a
   * normalised failure, which has no `response`.
   */
  function ShownError(err: ApiError): string
  {
    OrElse(err.message, "Unknown error")
  }

  /**
   * Because the instance always rejects with a non-empty message, the
   * page's "Unknown error" fallback is never taken: the text shown is the
   * normalised message.
   */
  lemma ShownErrorIsNormalized(e: AxiosError)
    ensures ShownError(NormalizeError(e)) == NormalizeError(e).message
  {
  }

  // ---------------------------------------------------------------------
  // loadCategories, as functions of the reply and of the current state. The
  // response data is `None` when it is falsy.

  function CategoriesAfterLoad(reply: Reply<Option<seq<Category>>>, current: seq<Category>): (r: seq<Category>)
    ensures reply.Ok? && reply.data.Some? ==> r == reply.data.value
    ensures !(reply.Ok? && reply.data.Some?) ==> r == current
  {
    match Intercept(reply)
    case Resolved(data) => if data.Some? then data.value else current
    case Rejected(_) => current
  }

  function NoticeAfterLoad(reply: Reply<Option<seq<Category>>>, current: Option<Notification>): (r: Option<Notification>)
    ensures reply.Ok? && reply.data.Some? ==> r == current
    ensures reply.Ok? && reply.data.None? ==> r == Some(Notification(Error, NoDataMessage))
    ensures reply.Fail? ==>
      r == Some(Notification(Error, "Failed to load categories: " + NormalizeError(reply.error).message))
  {
    match Intercept(reply)
    case Resolved(data) => if data.Some? then current else Some(Notification(Error, NoDataMessage))
    case Rejected(err) =>
      ShownErrorIsNormalized(reply.error);
      Some(Notification(Error, "Failed to load categories: " + ShownError(err)))
  }

  /**
   * A load that brings no list replaces whatever notification was showing
   * with an error, so a success message shown just before it is lost.
   */
  lemma FailedLoadOverwrites(reply: Reply<Option<seq<Category>>>, a: Option<Notification>, b: Option<Notification>)
    requires !(reply.Ok? && reply.data.Some?)
    ensures NoticeAfterLoad(reply, a) == NoticeAfterLoad(reply, b)
    ensures NoticeAfterLoad(reply, a).Some? && NoticeAfterLoad(reply, a).value.severity == Error
  {
  }

  // ---------------------------------------------------------------------
  // handleSubmit and confirmDelete.

  /** Update the selected category, or create one when nothing is selected. */
  function SubmitRequest(selected: Option<Category>): (r: Request)
    ensures r.verb == PUT <==> selected.Some?
    ensures selected.Some? ==> r.path == "/categories/" + selected.value.id
    ensures selected.None? ==> r == Request(POST, "/categories")
  {
    match selected
    case Some(c) => Request(PUT, "/categories/" + c.id)
    case None => Request(POST, "/categories")
  }

  function SubmitSuccess(selected: Option<Category>): (r: string)
    ensures selected.Some? <==> r == "Category updated successfully"
    ensures selected.None? <==> r == "Category created successfully"
  {
    if selected.Some? then "Category updated successfully" else "Category created successfully"
  }

  /** The verb of the failure text: "update" exactly when the request is a PUT. */
  function SubmitAction(selected: Option<Category>): (r: string)
    ensures r == "update" <==> SubmitRequest(selected).verb == PUT
    ensures r == "create" <==> SubmitRequest(selected).verb == POST
  {
    if selected.Some? then "update" else "create"
  }

  function SubmitFailure(selected: Option<Category>, e: AxiosError): (r: string)
    ensures r == "Failed to " + SubmitAction(selected) + " category: " + NormalizeError(e).message
  {
    ShownErrorIsNormalized(e);
    "Failed to " + SubmitAction(selected) + " category: " + ShownError(NormalizeError(e))
  }

  /**
   * `/categories/${selectedCategory?.id}`: with nothing selected the id
   * renders as "undefined".
   */
  function DeleteRequest(selected: Option<Category>): (r: Request)
    ensures r.verb == DELETE
    ensures selected.Some? ==> r.path == "/categories/" + selected.value.id
    ensures selected.None? ==> r.path == "/categories/undefined"
  {
    Request(DELETE, "/categories/" + (if selected.Some? then selected.value.id else "undefined"))
  }

  // ---------------------------------------------------------------------
  // The page.

  class CategoriesView {
    var categories: seq<Category>
    var open: bool
    var deleteDialogOpen: bool
    var selectedCategory: Option<Category>
    var formData: Form
    var notification: Option<Notification>
    /** Every request the page has issued, oldest first. */
    var requests: seq<Request>

    constructor ()
      ensures categories == [] && !open && !deleteDialogOpen && selectedCategory == None
      ensures formData == EmptyForm && notification == None && requests == []
    {
      categories, open, deleteDialogOpen, selectedCategory := [], false, false, None;
      formData, notification, requests := EmptyForm, None, [];
    }

    /** loadCategories: it catches its own failure, so it never rejects. */
    method LoadCategories(reply: Reply<Option<seq<Category>>>)
      modifies this`categories, this`notification, this`requests
      ensures requests == old(requests) + [ListRequest]
      ensures categories == CategoriesAfterLoad(reply, old(categories))
      ensures notification == NoticeAfterLoad(reply, old(notification))
    {
      requests := requests + [ListRequest];
      categories := CategoriesAfterLoad(reply, categories);
      notification := NoticeAfterLoad(reply, notification);
    }

    /** handleOpen: the form is filled from the category, or emptied for a new one. */
    method Open(category: Option<Category>)
      modifies this`selectedCategory, this`formData, this`open
      ensures selectedCategory == category && open
      ensures category.Some? ==> formData == Form(category.value.name, category.value.description)
      ensures category.None? ==> formData == EmptyForm
      ensures category.None? ==> SubmitDisabled()
      ensures category.Some? ==> (SubmitDisabled() <==> category.value.name == "")
    {
      match category {
        case Some(c) =>
          selectedCategory := Some(c);
          formData := Form(c.name, c.description);
        case None =>
          selectedCategory := None;
          formData := EmptyForm;
      }
      open := true;
    }

    /** handleClose */
    method Close()
      modifies this`selectedCategory, this`formData, this`open
      ensures !open && selectedCategory == None && formData == EmptyForm
      ensures SubmitDisabled()
    {
      open := false;
      selectedCategory := None;
      formData := EmptyForm;
    }

    /**
     * handleSubmit, with the answers to the save call and to the reload
     * that follows a successful one. On success the dialog is closed and
     * the notification is the success text unless the reload replaced it;
     * on failure the dialog, the selection and the form stay as they were.
     */
    method Submit(reply: Reply<()>, reload: Reply<Option<seq<Category>>>)
      modifies this`categories, this`notification, this`requests
      modifies this`selectedCategory, this`formData, this`open
      ensures reply.Ok? ==>
        (requests == old(requests) + [SubmitRequest(old(selectedCategory)), ListRequest] &&
         categories == CategoriesAfterLoad(reload, old(categories)) &&
         notification == NoticeAfterLoad(reload, Some(Notification(Success, SubmitSuccess(old(selectedCategory))))) &&
         !open && selectedCategory == None && formData == EmptyForm)
      ensures reply.Fail? ==>
        (requests == old(requests) + [SubmitRequest(old(selectedCategory))] &&
         categories == old(categories) &&
         notification == Some(Notification(Error, SubmitFailure(old(selectedCategory), reply.error))) &&
         open == old(open) && selectedCategory == old(selectedCategory) && formData == old(formData))
    {
      requests := requests + [SubmitRequest(selectedCategory)];
      match Intercept(reply) {
        case Resolved(_) =>
          notification := Some(Notification(Success, SubmitSuccess(selectedCategory)));
          LoadCategories(reload);
          Close();
        case Rejected(_) =>
          notification := Some(Notification(Error, SubmitFailure(selectedCategory, reply.error)));
      }
    }

    /** handleDelete: it only selects and asks; the form dialog is left alone. */
    method Delete(category: Category)
      modifies this`selectedCategory, this`deleteDialogOpen
      ensures selectedCategory == Some(category) && deleteDialogOpen
    {
      selectedCategory := Some(category);
      deleteDialogOpen := true;
    }

    /**
     * confirmDelete, with the answers to the DELETE call and to the reload
     * it starts without waiting. On failure the dialog and the selection
     * stay.
     */
    method ConfirmDelete(reply: Reply<()>, reload: Reply<Option<seq<Category>>>)
      modifies this`categories, this`notification, this`requests
      modifies this`selectedCategory, this`deleteDialogOpen
      ensures reply.Ok? ==>
        (requests == old(requests) + [DeleteRequest(old(selectedCategory)), ListRequest] &&
         categories == CategoriesAfterLoad(reload, old(categories)) &&
         notification == NoticeAfterLoad(reload, Some(Notification(Success, "Category deleted successfully"))) &&
         !deleteDialogOpen && selectedCategory == None)
      ensures reply.Fail? ==>
        (requests == old(requests) + [DeleteRequest(old(selectedCategory))] &&
         categories == old(categories) &&
         notification == Some(Notification(Error, "Failed to delete category: " + NormalizeError(reply.error).message)) &&
         deleteDialogOpen == old(deleteDialogOpen) && selectedCategory == old(selectedCategory))
    {
      requests := requests + [DeleteRequest(selectedCategory)];
      match Intercept(reply) {
        case Resolved(_) =>
          notification := Some(Notification(Success, "Category deleted successfully"));
          LoadCategories(reload);
          deleteDialogOpen := false;
          selectedCategory := None;
        case Rejected(err) =>
          notification := Some(Notification(Error, "Failed to delete category: " + err.message));
      }
    }

    /** The delete dialog's Cancel and `onClose`: the selection stays. */
    method CancelDelete()
      modifies this`deleteDialogOpen
      ensures !deleteDialogOpen
    {
      deleteDialogOpen := false;
    }

    /** The name field's `onChange`. */
    method SetName(name: string)
      modifies this`formData
      ensures formData == old(formData).(name := name)
      ensures SubmitDisabled() <==> name == ""
    {
      formData := formData.(name := name);
    }

    /** The description field's `onChange`. */
    method SetDescription(description: string)
      modifies this`formData
      ensures formData == old(formData).(description := description)
      ensures SubmitDisabled() == old(SubmitDisabled())
    {
      formData := formData.(description := description);
    }

    /** The snackbar's `onClose`. */
    method DismissNotification()
      modifies this`notification
      ensures notification == None
    {
      notification := None;
    }

    /** The submit button is disabled exactly while the name is empty. */
    function SubmitDisabled(): (r: bool)
      reads this
      ensures r <==> formData.name == ""
    {
      formData.name == ""
    }
  }
}
