/**
 * The blockchain data provider as the handlers see it. Its client library is
 * foreign code: a handler names the request it makes (`Call`), and what comes
 * back is either a payload, passed on unmodified, the client's `APIException`
 * with its text, or a `ValueError` or `TypeError` raised inside the client
 * (the handlers catch those two together, so one case stands for both).
 */
module Api {

  /** The lookups the handlers make. `withApiCode` records whether the
      configured API key goes along with the address lookup; the block and
      height lookups always send it. */
  datatype Call =
    | GetBlock(id: string)
    | GetAddress(address: string, withApiCode: bool)
    | GetBlockHeight(height: int)

  datatype ApiReply<+R> = Ok(value: R) | ApiException(message: string) | ValueOrTypeError(message: string)
}
