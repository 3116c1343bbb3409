/**
 * The push-notification composer page: a form over the selected user, a
 * title and a body, with one handler that sends to the selected user and
 * one that broadcasts to everyone after a confirmation prompt.
 */
module Notifications {
  import opened Common

  const FillAllFields := "Preencha todos os campos!"
  const FillTitleAndBody := "Preencha título e mensagem!"
  const SendFailed := "Erro ao enviar notificação"

  /** `messageType`: `''`, `'success'` or `'error'`. */
  datatype Tone = Unset | Success | Error

  /** An entry of `GET /notifications/users`. */
  datatype DeviceUser = DeviceUser(id: int, name: string, email: string, deviceCount: nat)

  /**
   * The request a handler posts. `userId` is the selected option's text;
   * its conversion with `parseInt` is not modelled.
   */
  datatype Request =
    | SendToOne(userId: string, title: string, body: string)
    | SendToEveryone(title: string, body: string)

  class Composer {
    var users: seq<DeviceUser>
    var selectedUser: string
    var title: string
    var body: string
    var loading: bool
    var message: string
    var messageType: Tone

    /**
     * Between two handler runs nothing is in flight (both send buttons are
     * disabled while `loading`), and an error tone always comes with a
     * non-empty message, so the `{message && …}` banner shows every error.
     */
    predicate Valid()
      reads this
    {
      !loading && (messageType == Error ==> message != "")
    }

    constructor ()
      ensures Valid()
      ensures users == [] && selectedUser == "" && title == "" && body == ""
      ensures message == "" && messageType == Unset
    {
      users := [];
      selectedUser := "";
      title := "";
      body := "";
      loading := false;
      message := "";
      messageType := Unset;
    }

    /** The mount effect `fetchUsers`; a failure is only logged. */
    method LoadUsers(reply: Reply<seq<DeviceUser>>)
      modifies this`users
      ensures reply.Ok? ==> users == reply.data
      ensures reply.Err? ==> users == old(users)
    {
      if reply.Ok? {
        users := reply.data;
      }
    }

    /**
     * `handleSendToUser`; `reply` is the outcome of `POST /notifications/send`
     * (its body's `message` on success). The result is the request posted,
     * `None` when validation stopped the handler before any request.
     */
    method SendToUser(reply: Reply<string>) returns (request: Option<Request>)
      requires Valid()
      modifies this
      ensures Valid() && users == old(users)
      ensures old(selectedUser) == "" || old(title) == "" || old(body) == "" ==>
        request == None && message == FillAllFields && messageType == Error
        && selectedUser == old(selectedUser) && title == old(title) && body == old(body)
      ensures old(selectedUser) != "" && old(title) != "" && old(body) != "" ==>
        request == Some(SendToOne(old(selectedUser), old(title), old(body)))
      ensures request.Some? && reply.Ok? ==>
        message == reply.data && messageType == Success
        && selectedUser == "" && title == "" && body == ""
      ensures request.Some? && reply.Err? ==>
        message == MessageOr(reply.error, SendFailed) && messageType == Error
        && selectedUser == old(selectedUser) && title == old(title) && body == old(body)
    {
      if selectedUser == "" || title == "" || body == "" {
        message := FillAllFields;
        messageType := Error;
        return None;
      }
      loading := true;
      message := "";
      request := Some(SendToOne(selectedUser, title, body));
      match reply {
        case Ok(serverMessage) =>
          message := serverMessage;
          messageType := Success;
          title := "";
          body := "";
          selectedUser := "";
        case Err(e) =>
          message := MessageOr(e, SendFailed);
          messageType := Error;
      }
      loading := false;
    }

    /**
     * `handleSendToAll`; `confirmed` is the answer to the confirmation prompt
     * and `reply` the outcome of `POST /notifications/send-all`. The
     * selected user plays no part and is kept.
     */
    method SendToAll(confirmed: bool, reply: Reply<string>) returns (request: Option<Request>)
      requires Valid()
      modifies this
      ensures Valid() && users == old(users) && selectedUser == old(selectedUser)
      ensures old(title) == "" || old(body) == "" ==>
        request == None && message == FillTitleAndBody && messageType == Error
        && title == old(title) && body == old(body)
      ensures old(title) != "" && old(body) != "" && !confirmed ==>
        request == None && unchanged(this)
      ensures old(title) != "" && old(body) != "" && confirmed ==>
        request == Some(SendToEveryone(old(title), old(body)))
      ensures request.Some? && reply.Ok? ==>
        message == reply.data && messageType == Success && title == "" && body == ""
      ensures request.Some? && reply.Err? ==>
        message == MessageOr(reply.error, SendFailed) && messageType == Error
        && title == old(title) && body == old(body)
    {
      if title == "" || body == "" {
        message := FillTitleAndBody;
        messageType := Error;
        return None;
      }
      if !confirmed {
        return None;
      }
      loading := true;
      message := "";
      request := Some(SendToEveryone(title, body));
      match reply {
        case Ok(serverMessage) =>
          message := serverMessage;
          messageType := Success;
          title := "";
          body := "";
        case Err(e) =>
          message := MessageOr(e, SendFailed);
          messageType := Error;
      }
      loading := false;
    }
  }
}
