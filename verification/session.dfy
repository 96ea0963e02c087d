/**
 * The voter session held by `VoterProvider`: the in-memory `voter` and
 * `blockchainInfo` state, and the browser's `localStorage` as a map from keys
 * to stored text.
 */
module Session {
  import opened Common

  datatype Voter = Voter(
    id: int,
    name: string,
    aadhar: string,
    phoneNo: string,
    votedAt: Option<string>,
    hasVoted: bool)

  /** Verification metadata the backend attaches to a voter; the client only displays it. */
  datatype BlockchainInfo = BlockchainInfo(
    blockHash: string,
    previousHash: string,
    timestamp: string,
    verificationStatus: string)

  /**
   * What a storage entry holds. `JSON.stringify` is not modelled: `VoterJson(v)`
   * stands for the serialised text of `v`, an encoding distinct for distinct
   * records; `Text(s)` is any other stored string.
   */
  datatype Stored = VoterJson(voter: Voter) | ChainJson(info: BlockchainInfo) | Text(text: string)

  type Storage = map<string, Stored>

  const VoterKey := "voter"
  const BlockchainKey := "blockchainInfo"
  const LoggedInKey := "isVoterLoggedIn"

  /** The three keys the voter session owns. */
  const SessionKeys: set<string> := {VoterKey, BlockchainKey, LoggedInKey}

  /** The context value: provider state plus the storage it writes. */
  datatype Context = Context(
    voter: Option<Voter>,
    blockchainInfo: Option<BlockchainInfo>,
    storage: Storage)

  /** A freshly mounted provider over the current storage: no voter in memory. */
  function Mount(storage: Storage): (c: Context)
    ensures c.voter == None && c.blockchainInfo == None
    ensures c.storage == storage
  {
    Context(None, None, storage)
  }

  /** Storage entries other than `keys` are the same in both maps. */
  ghost predicate SameOutside(a: Storage, b: Storage, keys: set<string>)
  {
    forall k :: k !in keys ==> (k in a <==> k in b) && (k in a ==> a[k] == b[k])
  }

  function Login(c: Context, voter: Voter, info: BlockchainInfo): (r: Context)
    ensures r.voter == Some(voter) && r.blockchainInfo == Some(info)
    ensures VoterKey in r.storage && r.storage[VoterKey] == VoterJson(voter)
    ensures BlockchainKey in r.storage && r.storage[BlockchainKey] == ChainJson(info)
    ensures LoggedInKey in r.storage && r.storage[LoggedInKey] == Text("true")
    ensures SameOutside(c.storage, r.storage, SessionKeys)
  {
    Context(Some(voter), Some(info),
      c.storage[VoterKey := VoterJson(voter)][BlockchainKey := ChainJson(info)][LoggedInKey := Text("true")])
  }

  function Logout(c: Context): (r: Context)
    ensures r.voter == None && r.blockchainInfo == None
    ensures forall k :: k in SessionKeys ==> k !in r.storage
    ensures SameOutside(c.storage, r.storage, SessionKeys)
  {
    Context(None, None, c.storage - SessionKeys)
  }

  /** Logging out twice is the same as logging out once. */
  lemma LogoutIdempotent(c: Context)
    ensures Logout(Logout(c)) == Logout(c)
  {
    assert Logout(Logout(c)).storage == Logout(c).storage;
  }

  /**
   * A login followed by a logout leaves the storage as it was before the
   * login, minus the three session keys, whatever those held.
   */
  lemma LoginLogoutRestores(c: Context, voter: Voter, info: BlockchainInfo)
    ensures Logout(Login(c, voter, info)) == Logout(c)
  {
    var a := Logout(Login(c, voter, info)).storage;
    var b := Logout(c).storage;
    assert forall k :: k in a <==> k in b;
    assert a == b;
  }

  /** Error raised by `useVoter` when no provider is above the caller. */
  const OutsideProviderMessage := "useVoter must be used within a VoterProvider"

  /** `useVoter`: the nearest provider's context, or the error it throws without one. */
  function UseVoter(provided: Option<Context>): (r: Result<Context, string>)
    ensures r.Ok? <==> provided.Some?
    ensures r.Ok? ==> r.value == provided.value
    ensures r.Err? ==> r.error == OutsideProviderMessage
  {
    match provided
    case Some(c) => Ok(c)
    case None => Err(OutsideProviderMessage)
  }

  /**
   * A consumer below the provider sees what the provider's operations did:
   * the voter just logged in, and nobody after a logout.
   */
  lemma UseVoterSeesSession(c: Context, voter: Voter, info: BlockchainInfo)
    ensures var r := UseVoter(Some(Login(c, voter, info)));
      r.Ok? && r.value.voter == Some(voter) && r.value.blockchainInfo == Some(info)
    ensures var r := UseVoter(Some(Logout(Login(c, voter, info))));
      r.Ok? && r.value.voter == None && r.value.blockchainInfo == None
    ensures UseVoter(None).Err?
  {
  }
}
