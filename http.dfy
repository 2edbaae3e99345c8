/** What a request handler answers: a success payload with its status, or an error with its message. */
module Http {

  datatype Response<+T> = Ok(status: int, value: T) | Error(status: int, message: string)

  const NoAutorizado := "No autorizado"
  const DatosInvalidos := "Datos inválidos"
  const ErrorInterno := "Error interno del servidor"
}
