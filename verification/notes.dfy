/** The note routes (backend/routes/notes.js): list, add, update and delete, each
    run for a caller id that the authentication gate has already resolved. The
    notes collection is a table from note id to note. */
module NoteService {
  import opened Common
  import opened Externals

  /** Note ids are the strings the routes receive in `req.params.id`. */
  type NoteId = string

  /** A stored note; `owner` is the `user` reference, set at creation. */
  datatype Note = Note(title: string, description: string, tag: string, owner: UserId)

  /** The three fields a request body may carry, for add and for update; `updateFields`
      of the update route has the same shape. */
  datatype NoteBody = NoteBody(title: Option<string>, description: Option<string>, tag: Option<string>)

  const DefaultTag := "General"
  const TitleMsg := "Title must be at least 3 characters"
  const DescriptionMsg := "Description must be at least 5 characters"
  const InvalidIdMsg := "Invalid note ID format"
  const NotFoundMsg := "Note not found"
  const UpdateForbiddenMsg := "Not authorized to update this note"
  const DeleteForbiddenMsg := "Not authorized to delete this note"
  const DeletedMsg := "Note has been deleted"
  const ServerErrorMsg := "Server error"

  /** The JSON a note route answers with. */
  datatype NoteReply =
    | NoteList(notes: map<NoteId, Note>)            // 200, the caller's notes
    | NoteSaved(id: NoteId, note: Note)             // 200, the saved or updated note
    | NoteDeleted(id: NoteId, deletedNote: Note)    // 200, { success, message: DeletedMsg, deletedNote }
    | NoteInvalid(errors: seq<FieldError>)          // 400, { errors }
    | NoteError(status: nat, message: string)       // 400 / 403 / 404 / 500, { error }

  function ReplyStatus(r: NoteReply): nat {
    match r
    case NoteInvalid(_) => 400
    case NoteError(status, _) => status
    case _ => 200
  }

  /** A route's reply together with the table it leaves behind. */
  datatype Outcome = Outcome(reply: NoteReply, notes: map<NoteId, Note>)

  /** `Notes.find({ user: caller })`: exactly the notes whose owner is the caller. */
  function OwnedBy(notes: map<NoteId, Note>, caller: UserId): (r: map<NoteId, Note>)
    ensures forall id :: id in r <==> id in notes && notes[id].owner == caller
    ensures forall id :: id in r ==> r[id] == notes[id]
  {
    map id | id in notes && notes[id].owner == caller :: notes[id]
  }

  /** The validation chain of the add route, in its order: title, then description. */
  function AddErrors(body: NoteBody): (errors: seq<FieldError>)
    ensures FieldError("title", TitleMsg) in errors <==> |Text(body.title)| < 3
    ensures FieldError("description", DescriptionMsg) in errors <==> |Text(body.description)| < 5
    ensures forall e :: e in errors ==> e == FieldError("title", TitleMsg) || e == FieldError("description", DescriptionMsg)
    ensures InChainOrder(errors, ["title", "description"])
  {
    (if |Text(body.title)| < 3 then [FieldError("title", TitleMsg)] else [])
    + (if |Text(body.description)| < 5 then [FieldError("description", DescriptionMsg)] else [])
  }

  /** The note the add route builds; the tag falls back to "General" when falsy. */
  function NewNote(caller: UserId, body: NoteBody): (n: Note)
    ensures n.owner == caller && n.title == Text(body.title) && n.description == Text(body.description)
    ensures Truthy(body.tag) ==> n.tag == body.tag.value
    ensures !Truthy(body.tag) ==> n.tag == DefaultTag
  {
    Note(Text(body.title), Text(body.description), if Truthy(body.tag) then body.tag.value else DefaultTag, caller)
  }

  /** The add route. `newId` is the id the store assigns; one already in use is
      the store's duplicate-key failure. */
  function AddNoteResult(notes: map<NoteId, Note>, caller: UserId, body: NoteBody, newId: NoteId): (o: Outcome)
    ensures AddErrors(body) != [] ==> o == Outcome(NoteInvalid(AddErrors(body)), notes)
    ensures AddErrors(body) == [] && newId in notes ==> o == Outcome(NoteError(500, ServerErrorMsg), notes)
    ensures o.reply.NoteSaved? <==> AddErrors(body) == [] && newId !in notes
    ensures o.reply.NoteSaved? ==> o.reply.id == newId && o.reply.note == NewNote(caller, body)
    ensures o.reply.NoteSaved? ==> o.notes == notes[newId := o.reply.note]
    ensures !o.reply.NoteSaved? ==> o.notes == notes
  {
    var errors := AddErrors(body);
    if errors != [] then Outcome(NoteInvalid(errors), notes)
    else if newId in notes then Outcome(NoteError(500, ServerErrorMsg), notes)
    else Outcome(NoteSaved(newId, NewNote(caller, body)), notes[newId := NewNote(caller, body)])
  }

  /** `updateFields`: the body fields that hold a truthy value. */
  function UpdateFields(body: NoteBody): (fields: NoteBody)
    ensures fields.title.Some? <==> Truthy(body.title)
    ensures fields.description.Some? <==> Truthy(body.description)
    ensures fields.tag.Some? <==> Truthy(body.tag)
    ensures fields.title.Some? ==> fields.title == body.title
    ensures fields.description.Some? ==> fields.description == body.description
    ensures fields.tag.Some? ==> fields.tag == body.tag
  {
    NoteBody(if Truthy(body.title) then body.title else None,
             if Truthy(body.description) then body.description else None,
             if Truthy(body.tag) then body.tag else None)
  }

  /** `{ $set: fields }` applied to one stored note. */
  function SetFields(note: Note, fields: NoteBody): Note {
    Note(if fields.title.Some? then fields.title.value else note.title,
         if fields.description.Some? then fields.description.value else note.description,
         if fields.tag.Some? then fields.tag.value else note.tag,
         note.owner)
  }

  /** What a successful update does to a note: exactly the truthy body fields
      replace the stored ones, and the owner stays. */
  lemma SetUpdateFields(note: Note, body: NoteBody)
    ensures var n := SetFields(note, UpdateFields(body));
      && n.owner == note.owner
      && n.title == (if Truthy(body.title) then body.title.value else note.title)
      && n.description == (if Truthy(body.description) then body.description.value else note.description)
      && n.tag == (if Truthy(body.tag) then body.tag.value else note.tag)
  {
  }

  /** The update route: id format, then existence, then ownership, then the update.
      The lookup is by the ObjectId the id string is cast to. */
  function UpdateNoteResult(env: Env, notes: map<NoteId, Note>, caller: UserId, id: string, body: NoteBody): (o: Outcome)
    ensures !env.isValidId(id) ==> o == Outcome(NoteError(400, InvalidIdMsg), notes)
    ensures env.isValidId(id) && env.castId(id) !in notes ==> o == Outcome(NoteError(404, NotFoundMsg), notes)
    ensures env.isValidId(id) && env.castId(id) in notes && notes[env.castId(id)].owner != caller
      ==> o == Outcome(NoteError(403, UpdateForbiddenMsg), notes)
    ensures o.reply.NoteSaved? <==> env.isValidId(id) && env.castId(id) in notes && notes[env.castId(id)].owner == caller
    ensures o.reply.NoteSaved? ==> o.reply.id == env.castId(id) && o.notes == notes[o.reply.id := o.reply.note]
    ensures o.reply.NoteSaved? ==> o.reply.note == SetFields(notes[o.reply.id], UpdateFields(body)) && o.reply.note.owner == caller
    ensures !o.reply.NoteSaved? ==> o.notes == notes
  {
    if !env.isValidId(id) then Outcome(NoteError(400, InvalidIdMsg), notes)
    else
      var key := env.castId(id);
      if key !in notes then Outcome(NoteError(404, NotFoundMsg), notes)
      else if notes[key].owner != caller then Outcome(NoteError(403, UpdateForbiddenMsg), notes)
      else
        var updated := SetFields(notes[key], UpdateFields(body));
        Outcome(NoteSaved(key, updated), notes[key := updated])
  }

  /** The delete route: the same checks in the same order, then the removal. */
  function DeleteNoteResult(env: Env, notes: map<NoteId, Note>, caller: UserId, id: string): (o: Outcome)
    ensures !env.isValidId(id) ==> o == Outcome(NoteError(400, InvalidIdMsg), notes)
    ensures env.isValidId(id) && env.castId(id) !in notes ==> o == Outcome(NoteError(404, NotFoundMsg), notes)
    ensures env.isValidId(id) && env.castId(id) in notes && notes[env.castId(id)].owner != caller
      ==> o == Outcome(NoteError(403, DeleteForbiddenMsg), notes)
    ensures o.reply.NoteDeleted? <==> env.isValidId(id) && env.castId(id) in notes && notes[env.castId(id)].owner == caller
    ensures o.reply.NoteDeleted? ==>
      o.reply.id == env.castId(id) && o.reply.deletedNote == notes[o.reply.id] && o.notes == notes - {o.reply.id}
    ensures !o.reply.NoteDeleted? ==> o.notes == notes
  {
    if !env.isValidId(id) then Outcome(NoteError(400, InvalidIdMsg), notes)
    else
      var key := env.castId(id);
      if key !in notes then Outcome(NoteError(404, NotFoundMsg), notes)
      else if notes[key].owner != caller then Outcome(NoteError(403, DeleteForbiddenMsg), notes)
      else Outcome(NoteDeleted(key, notes[key]), notes - {key})
  }

  /** How a route run by `caller` may change the table: a note the caller does not
      own keeps its id and its contents, no note changes owner, and a note that
      appears is owned by the caller. */
  ghost predicate RespectsOwnership(before: map<NoteId, Note>, after: map<NoteId, Note>, caller: UserId) {
    && (forall n :: n in before && before[n].owner != caller ==> n in after && after[n] == before[n])
    && (forall n :: n in before && n in after ==> after[n].owner == before[n].owner)
    && (forall n :: n !in before && n in after ==> after[n].owner == caller)
  }

  /** Whatever the caller sends, add, update and delete respect ownership. */
  lemma MutationsRespectOwnership(env: Env, notes: map<NoteId, Note>, caller: UserId,
                                  body: NoteBody, newId: NoteId, id: NoteId)
    ensures RespectsOwnership(notes, AddNoteResult(notes, caller, body, newId).notes, caller)
    ensures RespectsOwnership(notes, UpdateNoteResult(env, notes, caller, id, body).notes, caller)
    ensures RespectsOwnership(notes, DeleteNoteResult(env, notes, caller, id).notes, caller)
  {
  }

  /** A failed check (any reply with status 400 or more) leaves the table as it was. */
  lemma FailedChecksChangeNothing(env: Env, notes: map<NoteId, Note>, caller: UserId,
                                  body: NoteBody, newId: NoteId, id: NoteId)
    ensures var a := AddNoteResult(notes, caller, body, newId); ReplyStatus(a.reply) >= 400 ==> a.notes == notes
    ensures var u := UpdateNoteResult(env, notes, caller, id, body); ReplyStatus(u.reply) >= 400 ==> u.notes == notes
    ensures var d := DeleteNoteResult(env, notes, caller, id); ReplyStatus(d.reply) >= 400 ==> d.notes == notes
  {
  }

  /** Add then list: the caller's listing holds the new note, under its id, with
      the submitted fields and the default tag when none was given. */
  lemma AddThenList(notes: map<NoteId, Note>, caller: UserId, body: NoteBody, newId: NoteId)
    requires AddNoteResult(notes, caller, body, newId).reply.NoteSaved?
    ensures var listed := OwnedBy(AddNoteResult(notes, caller, body, newId).notes, caller);
      && newId in listed
      && listed[newId].title == body.title.value
      && listed[newId].description == body.description.value
      && listed[newId].tag == (if Truthy(body.tag) then body.tag.value else DefaultTag)
      && listed == OwnedBy(notes, caller)[newId := listed[newId]]
  {
    var o := AddNoteResult(notes, caller, body, newId);
    var listed := OwnedBy(o.notes, caller);
    assert FieldError("title", TitleMsg) !in AddErrors(body);
    assert FieldError("description", DescriptionMsg) !in AddErrors(body);
    assert listed == OwnedBy(notes, caller)[newId := listed[newId]];
  }

  /** The update route does not re-run the add route's length checks: a one-letter
      title is stored as given. */
  lemma UpdateSkipsLengthChecks(env: Env, caller: UserId, id: NoteId)
    requires env.isValidId(id) && env.castId(id) == id
    ensures var notes := map[id := Note("Hi there", "a short note", DefaultTag, caller)];
      var o := UpdateNoteResult(env, notes, caller, id, NoteBody(Some("x"), None, None));
      o.reply.NoteSaved? && |o.notes[id].title| < 3
  {
  }

  /** The notes collection as the routes see it. */
  class NoteStore {
    const env: Env
    var notes: map<NoteId, Note>

    constructor (env: Env)
      ensures this.env == env && notes == map[]
    {
      this.env := env;
      notes := map[];
    }

    /** GET /fetchallnotes */
    method FetchAllNotes(caller: UserId) returns (reply: NoteReply)
      ensures reply.NoteList? && reply.notes == OwnedBy(notes, caller)
      ensures forall id :: id in reply.notes <==> id in notes && notes[id].owner == caller
    {
      reply := NoteList(OwnedBy(notes, caller));
    }

    /** POST /addnote */
    method AddNote(caller: UserId, body: NoteBody, newId: NoteId) returns (reply: NoteReply)
      modifies this
      ensures Outcome(reply, notes) == AddNoteResult(old(notes), caller, body, newId)
    {
      var errors := AddErrors(body);
      if errors != [] {
        return NoteInvalid(errors);
      }
      var note := Note(Text(body.title), Text(body.description), DefaultTag, caller);
      if Truthy(body.tag) {
        note := note.(tag := body.tag.value);
      }
      if newId in notes {
        return NoteError(500, ServerErrorMsg);
      }
      notes := notes[newId := note];
      reply := NoteSaved(newId, note);
    }

    /** PUT /updatenote/:id */
    method UpdateNote(caller: UserId, id: string, body: NoteBody) returns (reply: NoteReply)
      modifies this
      ensures Outcome(reply, notes) == UpdateNoteResult(env, old(notes), caller, id, body)
    {
      if !env.isValidId(id) {
        return NoteError(400, InvalidIdMsg);
      }
      var fields := NoteBody(None, None, None);
      if Truthy(body.title) {
        fields := fields.(title := body.title);
      }
      if Truthy(body.description) {
        fields := fields.(description := body.description);
      }
      if Truthy(body.tag) {
        fields := fields.(tag := body.tag);
      }
      var key := env.castId(id);
      if key !in notes {
        return NoteError(404, NotFoundMsg);
      }
      var note := notes[key];
      if note.owner != caller {
        return NoteError(403, UpdateForbiddenMsg);
      }
      note := SetFields(note, fields);
      notes := notes[key := note];
      reply := NoteSaved(key, note);
    }

    /** DELETE /deletenote/:id */
    method DeleteNote(caller: UserId, id: string) returns (reply: NoteReply)
      modifies this
      ensures Outcome(reply, notes) == DeleteNoteResult(env, old(notes), caller, id)
    {
      if !env.isValidId(id) {
        return NoteError(400, InvalidIdMsg);
      }
      var key := env.castId(id);
      if key !in notes {
        return NoteError(404, NotFoundMsg);
      }
      var note := notes[key];
      if note.owner != caller {
        return NoteError(403, DeleteForbiddenMsg);
      }
      notes := notes - {key};
      reply := NoteDeleted(key, note);
    }
  }
}
