/**
 * The global flash channel the components report mutation failures to,
 * reduced to the shape of one message; each component keeps the messages
 * it pushes in its own effect log.
 */
module FlashesStore {

  datatype FlashKind = ERROR

  datatype Flash = Flash(kind: FlashKind, message: string)
}
