/** A toast notification, as raised through antd's `message.success` and
    `message.error`. Only the kind and the text are modelled. */
module Messages {

  datatype Message = Success(text: string) | Error(text: string)
}
