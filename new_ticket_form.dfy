/**
 * Filing a new ticket: the SLA hours taken from the chosen category (24 by default), the fields
 * the submitted ticket starts with, and the list of attachment names the form keeps.
 */
module NewTicketForm {
  import opened Wrappers
  import opened Seqs
  import opened Types
  import opened Helpers
  import opened Store

  /** The SLA budget used when the category gives none. */
  const DefaultSlaHours: int := 24

  /** The form's fields; `category` is "" until one is chosen. */
  datatype FormData = FormData(title: string, description: string, priority: Priority, category: string)

  /** The form as it opens: empty, with medium priority. */
  const InitialForm: FormData := FormData("", "", Medium, "")

  /** `category?.slaHours || 24`: the first category with the id, unless it is missing or its hours are 0. */
  function SlaHoursFor(categories: seq<Category>, categoryId: string): (h: int)
    ensures h != 0
    ensures FindCategory(categories, categoryId).None? ==> h == DefaultSlaHours
    ensures FindCategory(categories, categoryId).Some? ==>
      var c := FindCategory(categories, categoryId).value;
      h == if c.slaHours == 0 then DefaultSlaHours else c.slaHours
  {
    match FindCategory(categories, categoryId)
    case None => DefaultSlaHours
    case Some(c) => if c.slaHours != 0 then c.slaHours else DefaultSlaHours
  }

  /** The fields `handleSubmit` hands to `createTicket`. */
  function SubmittedDraft(form: FormData, requester: User, attachments: seq<string>,
                          categories: seq<Category>, now: Time): TicketDraft
  {
    TicketDraft(form.title, form.description, form.priority, Open, form.category, requester.id, None,
                attachments, None, SlaDeadline(now, SlaHoursFor(categories, form.category)))
  }

  /**
   * A submitted ticket starts open, unassigned and unresolved, belongs to the requester, carries the
   * form's fields and attachments, and is due the category's SLA hours after submission; with no
   * usable category hours it is due exactly one day later.
   */
  lemma SubmittedTicketFields(form: FormData, requester: User, attachments: seq<string>,
                              categories: seq<Category>, id: string, now: Time)
    ensures
      var t := NewTicket(SubmittedDraft(form, requester, attachments, categories, now), id, now);
      && t.status == Open && t.userId == requester.id && t.assignedTo.None? && t.resolvedAt.None?
      && t.title == form.title && t.description == form.description && t.priority == form.priority
      && t.category == form.category && t.attachments == attachments
      && t.timeline == [] && t.internalComments == [] && t.createdAt == now
      && t.slaDeadline == SlaDeadline(t.createdAt, SlaHoursFor(categories, form.category))
      && (FindCategory(categories, form.category).None? ==> t.slaDeadline == now + 86400000)
  {
  }

  /** With non-negative category hours, the deadline of a new ticket lies after its creation. */
  lemma SubmittedDeadlineInFuture(form: FormData, requester: User, attachments: seq<string>,
                                  categories: seq<Category>, now: Time)
    requires forall i :: 0 <= i < |categories| ==> categories[i].slaHours >= 0
    ensures SubmittedDraft(form, requester, attachments, categories, now).slaDeadline > now
  {
  }

  /**
   * `handleSubmit`: without a logged-in user or a chosen category nothing happens; otherwise exactly
   * one ticket is appended to the store.
   */
  method HandleSubmit(store: Store, requester: Option<User>, form: FormData, attachments: seq<string>,
                      categories: seq<Category>, id: string, now: Time) returns (created: Option<Ticket>)
    modifies store
    ensures requester.None? || form.category == "" ==> created.None? && store.tickets == old(store.tickets)
    ensures requester.Some? && form.category != "" ==>
      && created == Some(NewTicket(SubmittedDraft(form, requester.value, attachments, categories, now), id, now))
      && store.tickets == old(store.tickets) + [created.value]
    ensures store.users == old(store.users) && store.categories == old(store.categories)
    ensures store.slaConfig == old(store.slaConfig)
  {
    if requester.None? || form.category == "" {
      return None;
    }
    var t := store.CreateTicket(SubmittedDraft(form, requester.value, attachments, categories, now), id, now);
    created := Some(t);
  }

  /** The submit button is disabled while saving or while title, description or category is empty. */
  predicate SubmitDisabled(isLoading: bool, form: FormData)
  {
    isLoading || form.title == "" || form.description == "" || form.category == ""
  }

  /** An enabled button always passes the submit guard's category check; the initial form is disabled. */
  lemma EnabledSubmitHasCategory(form: FormData)
    ensures !SubmitDisabled(false, form) ==> form.category != "" && form.title != ""
    ensures SubmitDisabled(false, InitialForm)
  {
  }

  /** `handleFileUpload`: the chosen files' names go after the existing ones, in order. */
  function AddFiles(attachments: seq<string>, fileNames: seq<string>): (r: seq<string>)
    ensures |r| == |attachments| + |fileNames|
    ensures r[..|attachments|] == attachments && r[|attachments|..] == fileNames
  {
    attachments + fileNames
  }

  /** `prev.filter((_, i) => i !== index)` over the positions from `from` on. */
  function RemoveFrom(s: seq<string>, index: int, from: nat): (r: seq<string>)
    requires from <= |s|
    ensures 0 <= index - from < |s| - from ==> r == s[from..index] + s[index + 1..]
    ensures !(from <= index < |s|) ==> r == s[from..]
    decreases |s| - from
  {
    if from == |s| then []
    else if from == index then RemoveFrom(s, index, from + 1)
    else [s[from]] + RemoveFrom(s, index, from + 1)
  }

  /** Removing attachment `index` deletes exactly that one and keeps the rest in order; an index off the list removes nothing. */
  function RemoveAttachment(attachments: seq<string>, index: int): (r: seq<string>)
    ensures 0 <= index < |attachments| ==> r == attachments[..index] + attachments[index + 1..]
    ensures !(0 <= index < |attachments|) ==> r == attachments
  {
    RemoveFrom(attachments, index, 0)
  }

  /** Removing the file just added restores the list as it was. */
  lemma RemoveUndoesAdd(attachments: seq<string>, name: string)
    ensures RemoveAttachment(AddFiles(attachments, [name]), |attachments|) == attachments
  {
    var s := AddFiles(attachments, [name]);
    assert s[..|attachments|] == attachments;
  }
}
