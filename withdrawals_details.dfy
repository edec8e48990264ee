/**
  The withdrawal history screen: the chef id read from storage, the fetch
  it gates, the loading flag and the colour of each status.
  Source: screens/MyEarningsScreen/WithdrawalsDetailsScreen.js.
 */
module WithdrawalsDetails {
  import opened Js
  import opened Records

  /** The colour a withdrawal's status is written in. */
  function StatusColor(status: string): (color: string)
    ensures color == "orange" <==> status == "Pending"
    ensures color == "green" <==> status == "Completed"
    ensures color == "red" <==> status == "Rejected"
    ensures color == "black" <==> status !in {"Pending", "Completed", "Rejected"}
  {
    match status
    case "Pending" => "orange"
    case "Completed" => "green"
    case "Rejected" => "red"
    case _ => "black"
  }

  /** One withdrawal as the earning-details endpoint lists it. */
  datatype Withdrawal = Withdrawal(dateMs: Option<int>, amount: int, status: string)

  class WithdrawalsDetailsScreen {
    var chefId: Option<string>
    var withdrawalsData: Option<seq<Withdrawal>>
    var loading: bool

    constructor ()
      ensures chefId == None && withdrawalsData == None && loading
    {
      chefId, withdrawalsData, loading := None, None, true;
    }

    /** The mount effect: a stored user's id becomes the chef id. */
    method LoadUser(storedUser: Option<User>)
      modifies this`chefId
      ensures chefId == (if storedUser.Some? then Some(storedUser.value.id) else old(chefId))
    {
      if storedUser.Some? {
        chefId := Some(storedUser.value.id);
      }
    }

    /**
      The effect on `chefId`: the fetch runs only for a truthy id, and then
      clears `loading` whether it succeeds or fails. Without an id the
      spinner stays.
     */
    method FetchWithdrawals(reply: Reply<seq<Withdrawal>>) returns (fetched: bool)
      modifies this`withdrawalsData, this`loading
      ensures fetched <==> chefId.Some? && Truthy(chefId.value)
      ensures fetched ==> !loading
      ensures fetched && reply.Returned? ==> withdrawalsData == Some(reply.value)
      ensures !(fetched && reply.Returned?) ==> withdrawalsData == old(withdrawalsData)
      ensures !fetched ==> loading == old(loading)
    {
      fetched := chefId.Some? && chefId.value != "";
      if fetched {
        if reply.Returned? {
          withdrawalsData := Some(reply.value);
        }
        loading := false;
      }
    }
  }
}
