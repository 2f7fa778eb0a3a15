/**
 * The address service over an id-keyed store. Address operations see only the
 * address store: they never read or change a customer.
 */
module EnderecoService {
  import opened Wrappers
  import opened Domain
  import opened Dtos
  import opened Failures
  import EnderecoMapper
  import Listing

  /** The address table: its rows by id, and the next value of the identity column. */
  datatype EnderecoStore = EnderecoStore(rows: map<int, Endereco>, nextId: int)

  /** Every row is stored under its own id, and the identity column is past every id in use. */
  predicate Valid(s: EnderecoStore) {
    forall k :: k in s.rows ==> s.rows[k].id == Some(k) && k < s.nextId
  }

  /** An empty table whose identity column starts at 1. */
  const Empty := EnderecoStore(map[], 1)

  /** Finds an address; a null id is rejected by the repository before any lookup. */
  function BuscarPorId(s: EnderecoStore, id: Option<int>): (r: Result<EnderecoDTO, Failure>)
    ensures id.None? ==> r == Failure(Unhandled)
    ensures id.Some? ==> (r.Success? <==> id.value in s.rows)
    ensures id.Some? && id.value !in s.rows ==> r == Failure(NotFound(EnderecoNaoEncontrado(id.value)))
    ensures r.Success? ==> EnderecoMapper.ToEntity(r.value) == s.rows[id.value]
    ensures Valid(s) && r.Success? ==> r.value.id == id
  {
    match id
    case None => Failure(Unhandled)
    case Some(k) =>
      if k in s.rows then Success(EnderecoMapper.ToDto(s.rows[k]))
      else Failure(NotFound(EnderecoNaoEncontrado(k)))
  }

  /** Lists every stored address exactly once; never fails, and an empty store gives an empty list. */
  method BuscarTodos(s: EnderecoStore) returns (r: seq<EnderecoDTO>)
    ensures |r| == |s.rows|
    ensures forall k :: k in s.rows ==> EnderecoMapper.ToDto(s.rows[k]) in r
    ensures forall i :: 0 <= i < |r| ==> EnderecoMapper.ToEntity(r[i]) in s.rows.Values
    ensures Valid(s) ==> forall i, j :: 0 <= i < j < |r| ==> r[i].id != r[j].id
  {
    var ks := Listing.EnumerateKeys(s.rows.Keys);
    r := seq(|ks|, i requires 0 <= i < |ks| => EnderecoMapper.ToDto(s.rows[ks[i]]));
    forall k | k in s.rows
      ensures EnderecoMapper.ToDto(s.rows[k]) in r
    {
      var i :| 0 <= i < |ks| && ks[i] == k;
      assert r[i] == EnderecoMapper.ToDto(s.rows[k]);
    }
    forall i | 0 <= i < |r|
      ensures EnderecoMapper.ToEntity(r[i]) in s.rows.Values
    {
      EnderecoMapper.EntityRoundTrip(s.rows[ks[i]]);
    }
    if Valid(s) {
      forall i, j | 0 <= i < j < |r|
        ensures r[i].id != r[j].id
      {
        IdOfListed(s, ks[i]);
        IdOfListed(s, ks[j]);
      }
    }
  }

  lemma IdOfListed(s: EnderecoStore, k: int)
    requires Valid(s) && k in s.rows
    ensures EnderecoMapper.ToDto(s.rows[k]).id == Some(k)
  {
  }

  /**
   * Persists a new address. The payload carries no id (the id is read-only on
   * the wire); the identity column supplies a fresh one.
   */
  function Salvar(s: EnderecoStore, d: EnderecoDTO): (r: Step<EnderecoStore, EnderecoDTO>)
    requires Valid(s)
    requires d.id.None?
    ensures Valid(r.state)
    ensures r.result.Success?
    ensures r.result.value.id.Some?
    ensures var id := r.result.value.id.value;
      && id !in s.rows
      && (forall k :: k in s.rows ==> k < id)
      && r.state.rows == s.rows[id := EnderecoMapper.ToEntity(r.result.value)]
    ensures r.result.value.(id := None) == d
  {
    var e := EnderecoMapper.ToEntity(d).(id := Some(s.nextId));
    Step(EnderecoStore(s.rows[s.nextId := e], s.nextId + 1), Success(EnderecoMapper.ToDto(e)))
  }

  /**
   * Replaces every field of a stored address except its id. A missing address
   * fails before anything is written.
   */
  function Atualizar(s: EnderecoStore, id: int, d: EnderecoDTO): (r: Step<EnderecoStore, EnderecoDTO>)
    requires Valid(s)
    ensures Valid(r.state)
    ensures r.result.Success? <==> id in s.rows
    ensures r.result.Failure? ==> r.state == s && r.result.error == NotFound(EnderecoNaoEncontrado(id))
    ensures r.result.Success? ==>
      && r.result.value == d.(id := Some(id))
      && r.state == s.(rows := s.rows[id := EnderecoMapper.ToEntity(r.result.value)])
  {
    match BuscarPorId(s, Some(id))
    case Failure(f) => Step(s, Failure(f))
    case Success(found) =>
      var e := EnderecoMapper.UpdateFromDto(d, EnderecoMapper.ToEntity(found));
      Step(s.(rows := s.rows[e.id.value := e]), Success(EnderecoMapper.ToDto(e)))
  }

  /**
   * Removes a stored address. It checks nothing about customers, so one may be
   * left referring to the removed id.
   */
  function DeletarPorId(s: EnderecoStore, id: int): (r: Step<EnderecoStore, ()>)
    ensures r.result.Success? <==> id in s.rows
    ensures r.result.Failure? ==> r.state == s && r.result.error == NotFound(EnderecoNaoEncontrado(id))
    ensures r.result.Success? ==> r.state == s.(rows := s.rows - {id})
    ensures Valid(s) ==> Valid(r.state)
  {
    match BuscarPorId(s, Some(id))
    case Failure(f) => Step(s, Failure(f))
    case Success(_) => Step(s.(rows := s.rows - {id}), Success(()))
  }

  /** A saved address can be read back under the id it was given. */
  lemma BuscarAfterSalvar(s: EnderecoStore, d: EnderecoDTO)
    requires Valid(s) && d.id.None?
    ensures var r := Salvar(s, d);
      BuscarPorId(r.state, r.result.value.id) == Success(r.result.value)
  {
  }

  /** An updated address reads back as the payload under the unchanged id. */
  lemma BuscarAfterAtualizar(s: EnderecoStore, id: int, d: EnderecoDTO)
    requires Valid(s) && id in s.rows
    ensures BuscarPorId(Atualizar(s, id, d).state, Some(id)) == Success(d.(id := Some(id)))
  {
  }

  /** After a delete the id is gone: reading it fails with the not-found message. */
  lemma BuscarAfterDeletar(s: EnderecoStore, id: int)
    requires id in s.rows
    ensures BuscarPorId(DeletarPorId(s, id).state, Some(id)) == Failure(NotFound(EnderecoNaoEncontrado(id)))
  {
  }

  /** Updating with a payload twice leaves the same store as updating once. */
  lemma AtualizarIdempotent(s: EnderecoStore, id: int, d: EnderecoDTO)
    requires Valid(s)
    ensures var once := Atualizar(s, id, d);
      Atualizar(once.state, id, d) == once
  {
    var once := Atualizar(s, id, d);
    if id in s.rows {
      var e := EnderecoMapper.ToEntity(once.result.value);
      assert once.state.rows[id := e] == once.state.rows;
    }
  }
}
