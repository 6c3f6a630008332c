/** The toasts the client raises: a severity, a title and where the
    description comes from. Every toast also shows a close button; that
    rendering option is not modelled. */
module Notifications {

  /** `toast.error`, `toast.warning` and `toast.info`. */
  datatype Severity = Error | Warning | Info

  /** The fixed advice to retry later, or the `message` field of the error body. */
  datatype Description = RetryLater | ServerMessage(text: string)

  datatype Notification = Notification(severity: Severity, title: string, description: Description)

  const ServerErrorTitle := "服务器错误"
  const AuthFailedTitle := "认证失败"
  const ForbiddenTitle := "禁止访问"
  const NotFoundTitle := "找不到所需资源"
  const RequestFailedTitle := "请求失败"
  const RetryLaterText := "请稍候重试"

  /** The description text shown to the user. */
  function DescriptionText(d: Description): string {
    match d
    case RetryLater => RetryLaterText
    case ServerMessage(text) => text
  }

  /** The toast for a 5xx response. */
  const ServerErrorNotice := Notification(Error, ServerErrorTitle, RetryLater)

  /** The toast for a status no specific branch handles. */
  const RequestFailedNotice := Notification(Info, RequestFailedTitle, RetryLater)

  function AuthFailedNotice(message: string): Notification {
    Notification(Warning, AuthFailedTitle, ServerMessage(message))
  }

  function ForbiddenNotice(message: string): Notification {
    Notification(Warning, ForbiddenTitle, ServerMessage(message))
  }

  function NotFoundNotice(message: string): Notification {
    Notification(Error, NotFoundTitle, ServerMessage(message))
  }

  /** The gateway's conflict toast: the generic title, but as an error with the server's message. */
  function ConflictNotice(message: string): Notification {
    Notification(Error, RequestFailedTitle, ServerMessage(message))
  }
}
