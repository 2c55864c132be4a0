/** The two upstream providers as the handlers see them: the decoded JSON shapes, and the
    abstract result of one outbound GET (transport failure, or a status and a body that
    json.Unmarshal either decodes or rejects). */
module Providers {

  /** `ViaCEPResponse`: fields absent from the JSON decode to "" and false. */
  datatype ViaCepResponse = ViaCepResponse(localidade: string, erro: bool)

  /** `WeatherAPIResponse`: only current.temp_c is read. */
  datatype WeatherApiResponse = WeatherApiResponse(tempC: real)

  datatype Payload<T> = Undecodable | Decoded(value: T)

  /** What one GET returns: an error from the client, or a response whose body decodes or not. */
  datatype Reply<T> = TransportError | Received(statusCode: int, payload: Payload<T>)
}
