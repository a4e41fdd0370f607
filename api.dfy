/** The records the two form components exchange with the customer REST backend,
    and the requests they issue through its HTTP client. */
module Api {
  /** A customer as the backend returns it (the `CustomerProps` interface). */
  datatype Customer = Customer(id: string, name: string, cpf: string, email: string, birthday: string)

  /** The body of a creation request: every field but the server-assigned id. */
  datatype CustomerData = CustomerData(name: string, email: string, cpf: string, birthday: string)

  /** One call made through the HTTP client: `api.get(query)`, `api.post("", body)`
      or `api.delete(id)`. The backend's answer is not part of the request; the
      handlers that await one receive it as a parameter. */
  datatype Request =
    | Get(query: string)
    | Post(body: CustomerData)
    | Delete(id: string)
}
