/** server/models/notification.model.js: the `notificationSchema` constraints. */
module NotificationModel {
  import opened Wrappers
  import opened Js
  import opened Validation

  /**
   * A stored notification. The schema has no `content` path, so none is kept;
   * `sender` is "" when absent; `createdAt` comes from the caller's clock.
   */
  datatype Notification = Notification(id: Id, recipient: Id, ntype: string, idea: Id,
                                        sender: Id, read: bool, createdAt: int)

  /** The schema's enum for `type`. */
  const TypeEnum: seq<string> := ["like", "comment"]

  /** Mongoose's message for a value outside an enum. */
  function EnumMessage(value: string, path: string): string {
    "`" + value + "` is not a valid enum value for path `" + path + "`."
  }

  /**
   * Validation of a notification: `recipient`, `type` and `idea` are required,
   * `type` must be one of 'like' and 'comment', `sender` is optional.
   */
  function NotificationErrors(recipient: Id, ntype: string, idea: Id): (r: Errors)
    ensures "recipient" in r <==> recipient == ""
    ensures "type" in r <==> ntype !in TypeEnum
    ensures "idea" in r <==> idea == ""
    ensures r.Keys <= {"recipient", "type", "idea"}
  {
    var e1 := Check(map[], "recipient", recipient == "", RequiredMessage("recipient"));
    var e2 := Check(e1, "type", ntype !in TypeEnum,
                    if ntype == "" then RequiredMessage("type") else EnumMessage(ntype, "type"));
    Check(e2, "idea", idea == "", RequiredMessage("idea"))
  }

  /** A stored notification passes its schema. */
  predicate Valid(n: Notification) {
    NotificationErrors(n.recipient, n.ntype, n.idea) == map[]
  }

  /** A new document: `read` takes its default, false, unless given. */
  function NewNotification(id: Id, recipient: Id, ntype: string, idea: Id, sender: Id,
                           read: Option<bool>, createdAt: int): (n: Notification)
    ensures read.None? ==> !n.read
    ensures n.recipient == recipient && n.ntype == ntype && n.idea == idea && n.sender == sender
  {
    Notification(id, recipient, ntype, idea, sender, read.GetOr(false), createdAt)
  }

  /** 'support' and 'inspiration' are outside the schema's enum. */
  lemma SchemaRejectsSupportAndInspiration(recipient: Id, idea: Id)
    ensures "type" in NotificationErrors(recipient, "support", idea)
    ensures "type" in NotificationErrors(recipient, "inspiration", idea)
    ensures "type" !in NotificationErrors(recipient, "comment", idea)
  {
  }
}
