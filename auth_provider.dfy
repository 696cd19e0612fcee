/** The mock sign-in of providers/AuthProvider.tsx: the signed-in agent,
    the loading flag and the session-storage slot 'properview_agent_id'.
    Whether the browser lets the code reach session storage (it may be
    absent on the server, or access may be denied) is a parameter of each
    call; a blocked access is caught and only logged. */
module AuthProvider {
  import opened Wrappers
  import opened Types

  const STORAGE_KEY := "properview_agent_id"
  const OUTSIDE_PROVIDER := "useAuth must be used within an AuthProvider"

  /** The agent the mount effect restores from the slot. */
  function Restore(slot: Option<string>, storageAvailable: bool): (agent: Option<Agent>)
    ensures agent.Some? <==> storageAvailable && slot == Some(MOCK_AGENT_ID)
    ensures agent.Some? ==> agent.value == MockAgent
  {
    if storageAvailable && slot == Some(MOCK_AGENT_ID) then Some(MockAgent) else None
  }

  /** The slot after `login(agentId)`. */
  function SlotAfterLogin(slot: Option<string>, agentId: string, storageAvailable: bool): (after: Option<string>)
    ensures agentId != MOCK_AGENT_ID || !storageAvailable ==> after == slot
    ensures agentId == MOCK_AGENT_ID && storageAvailable ==> after == Some(MOCK_AGENT_ID)
  {
    if agentId == MOCK_AGENT_ID && storageAvailable then Some(agentId) else slot
  }

  /** The slot after `logout()`. */
  function SlotAfterLogout(slot: Option<string>, storageAvailable: bool): (after: Option<string>)
    ensures storageAvailable ==> after == None
    ensures !storageAvailable ==> after == slot
  {
    if storageAvailable then None else slot
  }

  /** A sign-in that reached storage survives a reload, and a sign-out that
      reached storage is not undone by one. */
  lemma SessionRoundTrip(slot: Option<string>)
    ensures Restore(SlotAfterLogin(slot, MOCK_AGENT_ID, true), true) == Some(MockAgent)
    ensures Restore(SlotAfterLogout(slot, true), true) == None
  {
  }

  class Auth {
    var agent: Option<Agent>
    var isLoading: bool
    /** The session-storage slot, which outlives the component. */
    var slot: Option<string>

    /** The first render, with whatever the slot already holds. */
    constructor (slot: Option<string>)
      ensures agent == None && isLoading && this.slot == slot
    {
      agent := None;
      isLoading := true;
      this.slot := slot;
    }

    /** The mount effect: the mock agent is signed in again when the slot
        holds its id; loading ends in every case. */
    method Init(storageAvailable: bool)
      modifies this
      ensures agent == (if Restore(slot, storageAvailable).Some? then Restore(slot, storageAvailable) else old(agent))
      ensures !isLoading && slot == old(slot)
    {
      if storageAvailable {
        if slot == Some(MOCK_AGENT_ID) {
          agent := Some(MockAgent);
        }
      }
      isLoading := false;
    }

    /** `login(agentId)`: only the mock id signs in and is stored; a storage
        failure still leaves the agent signed in; any other id changes
        nothing. */
    method Login(agentId: string, storageAvailable: bool)
      modifies this
      ensures agentId == MOCK_AGENT_ID ==> agent == Some(MockAgent)
      ensures agentId != MOCK_AGENT_ID ==> agent == old(agent)
      ensures slot == SlotAfterLogin(old(slot), agentId, storageAvailable)
      ensures isLoading == old(isLoading)
    {
      if agentId == MOCK_AGENT_ID {
        agent := Some(MockAgent);
        if storageAvailable {
          slot := Some(agentId);
        }
      }
    }

    /** `logout()`: the agent is signed out and the slot is cleared when
        storage is reachable. */
    method Logout(storageAvailable: bool)
      modifies this
      ensures agent == None
      ensures slot == SlotAfterLogout(old(slot), storageAvailable)
      ensures isLoading == old(isLoading)
    {
      agent := None;
      if storageAvailable {
        slot := None;
      }
    }
  }

  /** `useAuth()`: the provider's state, or the error it throws. */
  function UseAuth(context: Option<Auth>): (r: Result<Auth, string>)
    ensures r.Failure? <==> context.None?
    ensures r.Failure? ==> r.error == OUTSIDE_PROVIDER
    ensures r.Success? ==> r.value == context.value
  {
    match context
    case None => Failure(OUTSIDE_PROVIDER)
    case Some(auth) => Success(auth)
  }
}
