/** `get_foods`: follow the `next` links of the Tandoor food listing, concatenate the
    pages, and check the total against the last page's `count`. The HTTP transport is
    a sequence of responses: the i-th request made receives the i-th response. */
module Pagination {
  import opened Wrappers
  import opened TandoorModels

  /** `i32::MAX`: `i32::try_from` of a longer length fails. */
  const I32Max := 0x7FFF_FFFF

  datatype PageResponse =
    | PageFailed                       // send, status or body decoding failed (`?`)
    | PageOk(page: InternalFoodPage)

  datatype FoodsError =
    | RequestFailed                                 // propagated by `?`
    | LengthOverflow                                // `i32::try_from(len)?`
    | CountMismatch(expected: int, received: int)   // the `panic!`

  /** The loop stops after this response. */
  predicate Ends(r: PageResponse) {
    r.PageFailed? || r.page.next.None?
  }

  /** The server eventually ends the chain of `next` links. */
  predicate Terminates(responses: seq<PageResponse>) {
    exists i :: 0 <= i < |responses| && Ends(responses[i])
  }

  /** Index of the last response the loop reads. */
  function LastRead(responses: seq<PageResponse>): (k: nat)
    requires Terminates(responses)
    ensures k < |responses| && Ends(responses[k])
    ensures forall j :: 0 <= j < k ==> !Ends(responses[j])
  {
    if Ends(responses[0]) then 0
    else
      assert Terminates(responses[1..]) by {
        var i :| 0 <= i < |responses| && Ends(responses[i]);
        assert responses[1..][i - 1] == responses[i];
      }
      1 + LastRead(responses[1..])
  }

  /** All results of the first `n` pages, in order. */
  function Collected(responses: seq<PageResponse>, n: nat): seq<InternalFood>
    requires n <= |responses|
    requires forall j :: 0 <= j < n ==> responses[j].PageOk?
  {
    if n == 0 then [] else Collected(responses, n - 1) + responses[n - 1].page.results
  }

  /** The sum of the page sizes is the number of foods collected. */
  function PageSizes(responses: seq<PageResponse>, n: nat): nat
    requires n <= |responses|
    requires forall j :: 0 <= j < n ==> responses[j].PageOk?
  {
    if n == 0 then 0 else PageSizes(responses, n - 1) + |responses[n - 1].page.results|
  }

  lemma {:induction false} CollectedLength(responses: seq<PageResponse>, n: nat)
    requires n <= |responses|
    requires forall j :: 0 <= j < n ==> responses[j].PageOk?
    ensures |Collected(responses, n)| == PageSizes(responses, n)
  {
    if n > 0 {
      CollectedLength(responses, n - 1);
    }
  }

  /** What `get_foods` returns for a sequence of responses. */
  function FoodsOutcome(responses: seq<PageResponse>): Result<seq<InternalFood>, FoodsError>
    requires Terminates(responses)
  {
    var k := LastRead(responses);
    if responses[k].PageFailed? then Failure(RequestFailed)
    else
      var all := Collected(responses, k + 1);
      if |all| > I32Max then Failure(LengthOverflow)
      else if responses[k].page.count != |all| then Failure(CountMismatch(responses[k].page.count, |all|))
      else Success(all)
  }

  /** The loop of `get_foods`. `requested` lists the URLs asked for: the food endpoint, then each `next`. */
  method GetFoods(foodEndpoint: string, responses: seq<PageResponse>)
    returns (r: Result<seq<InternalFood>, FoodsError>, requested: seq<string>)
    requires Terminates(responses)
    ensures r == FoodsOutcome(responses)
    ensures |requested| == LastRead(responses) + 1
    ensures requested[0] == foodEndpoint
    ensures forall j :: 0 < j < |requested| ==> responses[j - 1].PageOk? && requested[j] == responses[j - 1].page.next.value
  {
    var url := foodEndpoint;
    var foods: seq<InternalFood> := [];
    var expected := 0;
    var i := 0;
    requested := [];
    while true
      invariant i <= LastRead(responses)
      invariant forall j :: 0 <= j < i ==> responses[j].PageOk?
      invariant foods == Collected(responses, i)
      invariant |requested| == i
      invariant i == 0 ==> url == foodEndpoint
      invariant i > 0 ==> url == responses[i - 1].page.next.value
      invariant forall j :: 0 < j < i ==> requested[j] == responses[j - 1].page.next.value
      invariant i > 0 ==> requested[0] == foodEndpoint
      decreases LastRead(responses) - i
    {
      requested := requested + [url];
      var response := responses[i];
      if response.PageFailed? {
        return Failure(RequestFailed), requested;
      }
      foods := foods + response.page.results;
      expected := response.page.count;
      if response.page.next.Some? {
        url := response.page.next.value;
        i := i + 1;
      } else {
        break;
      }
    }
    if |foods| > I32Max {
      return Failure(LengthOverflow), requested;
    }
    if expected != |foods| {
      return Failure(CountMismatch(expected, |foods|)), requested;
    }
    r := Success(foods);
  }

  /** On success the foods are every page's results in order, and there are exactly as many as the last page announced. */
  lemma SuccessMeansCountMatches(responses: seq<PageResponse>)
    requires Terminates(responses)
    requires FoodsOutcome(responses).Success?
    ensures var k := LastRead(responses);
      && (forall j :: 0 <= j <= k ==> responses[j].PageOk?)
      && FoodsOutcome(responses).value == Collected(responses, k + 1)
      && |FoodsOutcome(responses).value| == responses[k].page.count
      && |FoodsOutcome(responses).value| == PageSizes(responses, k + 1)
      && |FoodsOutcome(responses).value| <= I32Max
  {
    CollectedLength(responses, LastRead(responses) + 1);
  }

  /** Whenever every page arrives but the last page's count differs from the total received, the run panics. */
  lemma CountDifferenceAlwaysPanics(responses: seq<PageResponse>)
    requires Terminates(responses)
    requires var k := LastRead(responses);
      && responses[k].PageOk?
      && PageSizes(responses, k + 1) <= I32Max
      && responses[k].page.count != PageSizes(responses, k + 1)
    ensures FoodsOutcome(responses).Failure? && FoodsOutcome(responses).error.CountMismatch?
  {
    CollectedLength(responses, LastRead(responses) + 1);
  }

  function SampleFood(id: int): InternalFood {
    InternalFood(id, "food", None, [], None)
  }

  /** Three pages of 2, 2 and 1 foods with a declared total of 5 give all 5 foods; a declared total of 6 panics. */
  lemma ThreePageExample()
    ensures var pages := [
        PageOk(InternalFoodPage(5, Some("p2"), [SampleFood(1), SampleFood(2)])),
        PageOk(InternalFoodPage(5, Some("p3"), [SampleFood(3), SampleFood(4)])),
        PageOk(InternalFoodPage(5, None, [SampleFood(5)]))];
      Terminates(pages) && FoodsOutcome(pages) == Success([SampleFood(1), SampleFood(2), SampleFood(3), SampleFood(4), SampleFood(5)])
    ensures var pages := [
        PageOk(InternalFoodPage(6, Some("p2"), [SampleFood(1), SampleFood(2)])),
        PageOk(InternalFoodPage(6, Some("p3"), [SampleFood(3), SampleFood(4)])),
        PageOk(InternalFoodPage(6, None, [SampleFood(5)]))];
      Terminates(pages) && FoodsOutcome(pages) == Failure(CountMismatch(6, 5))
  {
    var pages := [
        PageOk(InternalFoodPage(5, Some("p2"), [SampleFood(1), SampleFood(2)])),
        PageOk(InternalFoodPage(5, Some("p3"), [SampleFood(3), SampleFood(4)])),
        PageOk(InternalFoodPage(5, None, [SampleFood(5)]))];
    assert Ends(pages[2]);
    assert LastRead(pages) == 2 by {
      assert pages[1..][1..] == [pages[2]];
    }
    assert Collected(pages, 2) == [SampleFood(1), SampleFood(2), SampleFood(3), SampleFood(4)] by {
      assert Collected(pages, 1) == [SampleFood(1), SampleFood(2)];
    }
    var all := [SampleFood(1), SampleFood(2), SampleFood(3), SampleFood(4), SampleFood(5)];
    assert Collected(pages, 3) == all;
    assert |all| == 5;
    var bad := [
        PageOk(InternalFoodPage(6, Some("p2"), [SampleFood(1), SampleFood(2)])),
        PageOk(InternalFoodPage(6, Some("p3"), [SampleFood(3), SampleFood(4)])),
        PageOk(InternalFoodPage(6, None, [SampleFood(5)]))];
    assert Ends(bad[2]);
    assert LastRead(bad) == 2 by {
      assert bad[1..][1..] == [bad[2]];
    }
  }
}
