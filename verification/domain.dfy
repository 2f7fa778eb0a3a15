/** The two persisted entities. Every field is a nullable Java reference. */
module Domain {
  import opened Wrappers

  /**
   * A customer row, keyed by `cpf` (the Brazilian tax ID). The `@ManyToOne`
   * address reference is kept as the referenced address's id, the only part
   * of it the mappers read or write; `None` covers both a null reference and
   * a reference whose id is null.
   */
  datatype Cliente = Cliente(
    cpf: Option<string>,
    nome: Option<string>,
    email: Option<string>,
    enderecoId: Option<int>)

  /** An address row, keyed by the identity value the database assigns to `id`. */
  datatype Endereco = Endereco(
    id: Option<int>,
    cep: Option<string>,
    estado: Option<string>,
    cidade: Option<string>,
    bairro: Option<string>,
    rua: Option<string>,
    numero: Option<string>)
}
