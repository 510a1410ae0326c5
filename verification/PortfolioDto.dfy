/** The wire shape of a holding as the remote endpoint delivers it, and
    its mapping onto the domain entity. */
module Dto {
  import opened Domain

  datatype UserHoldingDto = UserHoldingDto(symbol: string, quantity: Int32, ltp: real, avgPrice: real, close: real)

  /** `toDomain`: a total, field-for-field copy. */
  function ToDomain(d: UserHoldingDto): (p: Portfolio)
    ensures p.symbol == d.symbol
    ensures p.quantity == d.quantity && p.ltp == d.ltp && p.avgPrice == d.avgPrice && p.close == d.close
  {
    Portfolio(d.symbol, d.quantity, d.ltp, d.avgPrice, d.close)
  }

  /** No information is lost by the mapping: distinct DTOs give distinct
      holdings. */
  lemma {:induction false} ToDomainInjective(a: UserHoldingDto, b: UserHoldingDto)
    ensures ToDomain(a) == ToDomain(b) ==> a == b
  {
  }

  /** `remoteData.map { it.toDomain() }`: the list mapped element by
      element, keeping its length and order. */
  function MapToDomain(ds: seq<UserHoldingDto>): (ps: seq<Portfolio>)
    ensures |ps| == |ds|
    ensures forall i :: 0 <= i < |ds| ==> ps[i] == ToDomain(ds[i])
  {
    if ds == [] then [] else [ToDomain(ds[0])] + MapToDomain(ds[1..])
  }

  /** Mapping lists is injective as well: the domain list determines the
      DTO list it came from. */
  lemma {:induction false} MapToDomainInjective(a: seq<UserHoldingDto>, b: seq<UserHoldingDto>)
    requires MapToDomain(a) == MapToDomain(b)
    ensures a == b
  {
    assert |a| == |b|;
    forall i | 0 <= i < |a|
      ensures a[i] == b[i]
    {
      assert ToDomain(a[i]) == MapToDomain(a)[i] == ToDomain(b[i]);
      ToDomainInjective(a[i], b[i]);
    }
  }

  /** The repository unit test's mapping: two DTOs become the two expected
      holdings, in order. */
  lemma {:induction false} MappingExample()
    ensures MapToDomain([UserHoldingDto("AAPL", 10, 100.0, 80.0, 105.0),
                         UserHoldingDto("GOOGL", 5, 400.0, 300.0, 395.0)])
         == [Portfolio("AAPL", 10, 100.0, 80.0, 105.0),
             Portfolio("GOOGL", 5, 400.0, 300.0, 395.0)]
  {
  }
}
