/**
 * The domain failures the services raise and the messages they carry.
 * `NotFound` is `RecursoNaoEncontradoException`, `Conflict` is
 * `CPFJaCadastradoException`; `Unhandled` is any other exception, here the
 * repository rejecting a null id.
 */
module Failures {
  import opened Wrappers
  import opened Text

  datatype Failure = NotFound(message: string) | Conflict(message: string) | Unhandled

  /** What a service call leaves behind: the store after the call, and what it returned or threw. */
  datatype Step<S, T> = Step(state: S, result: Result<T, Failure>)

  const ClientePrefix := "Cliente não encontrado com o cpf: "
  const EnderecoPrefix := "Endereço não encontrado com id: "
  const CpfPrefix := "CPF "
  const CpfSuffix := " já cadastrado no sistema"

  /** The customer-not-found message: the fixed prefix, then the CPF as given. */
  function ClienteNaoEncontrado(cpf: string): (m: string)
    ensures |m| == |ClientePrefix| + |cpf|
    ensures m[..|ClientePrefix|] == ClientePrefix && m[|ClientePrefix|..] == cpf
  {
    ClientePrefix + cpf
  }

  /** The address-not-found message: the fixed prefix, then the id in decimal, signed when negative. */
  function EnderecoNaoEncontrado(id: int): (m: string)
    ensures |m| > |EnderecoPrefix|
    ensures m[..|EnderecoPrefix|] == EnderecoPrefix
    ensures m[|EnderecoPrefix|] == '-' <==> id < 0
    ensures id >= 0 ==> IsDigits(m[|EnderecoPrefix|..]) && DecimalValue(m[|EnderecoPrefix|..]) == id
    ensures id < 0 ==> IsDigits(m[|EnderecoPrefix| + 1..]) && DecimalValue(m[|EnderecoPrefix| + 1..]) == -id
  {
    EnderecoPrefix + LongToString(id)
  }

  /** The duplicate-CPF message: the CPF as given, between the fixed prefix and suffix. */
  function CpfJaCadastrado(cpf: string): (m: string)
    ensures |m| == |CpfPrefix| + |cpf| + |CpfSuffix|
    ensures m[..|CpfPrefix|] == CpfPrefix && m[|CpfPrefix|..|CpfPrefix| + |cpf|] == cpf
    ensures m[|CpfPrefix| + |cpf|..] == CpfSuffix
  {
    CpfPrefix + cpf + CpfSuffix
  }

  /** A customer-not-found message names exactly one tax ID. */
  lemma ClienteNaoEncontradoInjective(a: string, b: string)
    requires ClienteNaoEncontrado(a) == ClienteNaoEncontrado(b)
    ensures a == b
  {
  }

  /** An address-not-found message names exactly one id. */
  lemma EnderecoNaoEncontradoInjective(a: int, b: int)
    requires EnderecoNaoEncontrado(a) == EnderecoNaoEncontrado(b)
    ensures a == b
  {
  }

  /** A conflict message names exactly one tax ID. */
  lemma CpfJaCadastradoInjective(a: string, b: string)
    requires CpfJaCadastrado(a) == CpfJaCadastrado(b)
    ensures a == b
  {
  }

  /**
   * Both "not found" cases share one failure kind; the message alone tells a
   * missing customer from a missing address.
   */
  lemma NotFoundMessagesDistinct(cpf: string, id: int)
    ensures ClienteNaoEncontrado(cpf) != EnderecoNaoEncontrado(id)
  {
  }
}
