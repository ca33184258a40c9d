/** The registry that maps a pod's LLM token to the session, and the user, it acts for. */
module TokenRegistries {
  import opened Common

  datatype Registry = Registry(bySession: map<Token, SessionId>, byUser: map<Token, User>) {

    function Bind(token: Token, sid: SessionId, user: User): Registry {
      Registry(bySession[token := sid], if user == "" then byUser else byUser[token := user])
    }

    function Unbind(token: Token): Registry {
      Registry(bySession - {token}, byUser - {token})
    }

    function TokensOf(sid: SessionId): set<Token> {
      set t | t in bySession && bySession[t] == sid
    }

    function RevokeForSession(sid: SessionId): Registry {
      Registry(bySession - TokensOf(sid), byUser - TokensOf(sid))
    }

    /** The user table never knows a token the session table has forgotten. */
    predicate Consistent() {
      byUser.Keys <= bySession.Keys
    }
  }

  class TokenRegistry {
    var tokenToSession: map<Token, SessionId>
    var tokenToUser: map<Token, User>

    function View(): Registry
      reads this
    {
      Registry(tokenToSession, tokenToUser)
    }

    constructor ()
      ensures View() == Registry(map[], map[])
    {
      tokenToSession, tokenToUser := map[], map[];
    }

    method Resolve(token: Token) returns (sid: Option<SessionId>)
      ensures sid.Some? <==> token in tokenToSession
      ensures sid.Some? ==> sid.value == tokenToSession[token]
    {
      sid := if token in tokenToSession then Some(tokenToSession[token]) else None;
    }

    method ResolveUser(token: Token) returns (user: User)
      ensures token in tokenToUser ==> user == tokenToUser[token]
      ensures token !in tokenToUser ==> user == ""
    {
      user := if token in tokenToUser then tokenToUser[token] else "";
    }

    method Bind(token: Token, sid: SessionId, user: User)
      modifies this
      ensures View() == old(View()).Bind(token, sid, user)
      ensures tokenToSession == old(tokenToSession)[token := sid]
      ensures user == "" ==> tokenToUser == old(tokenToUser)
      ensures user != "" ==> tokenToUser == old(tokenToUser)[token := user]
    {
      tokenToSession := tokenToSession[token := sid];
      if user != "" {
        tokenToUser := tokenToUser[token := user];
      }
    }

    method Unbind(token: Token)
      modifies this
      ensures View() == old(View()).Unbind(token)
      ensures token !in tokenToSession && token !in tokenToUser
      ensures forall t | t != token ::
                && (t in tokenToSession <==> t in old(tokenToSession))
                && (t in tokenToSession ==> tokenToSession[t] == old(tokenToSession)[t])
                && (t in tokenToUser <==> t in old(tokenToUser))
                && (t in tokenToUser ==> tokenToUser[t] == old(tokenToUser)[t])
    {
      tokenToSession := tokenToSession - {token};
      tokenToUser := tokenToUser - {token};
    }

    method RevokeForSession(sid: SessionId)
      modifies this
      ensures View() == old(View()).RevokeForSession(sid)
      ensures forall t | t in tokenToSession :: tokenToSession[t] != sid
      ensures forall t :: t in tokenToSession <==> t in old(tokenToSession) && old(tokenToSession)[t] != sid
      ensures forall t | t in tokenToSession :: tokenToSession[t] == old(tokenToSession)[t]
      ensures forall t :: t in tokenToUser <==>
                            t in old(tokenToUser) && !(t in old(tokenToSession) && old(tokenToSession)[t] == sid)
      ensures forall t | t in tokenToUser :: tokenToUser[t] == old(tokenToUser)[t]
    {
      ghost var was := View();
      var doomed := set t | t in tokenToSession && tokenToSession[t] == sid;
      assert doomed == was.TokensOf(sid);
      while doomed != {}
        invariant doomed <= was.TokensOf(sid)
        invariant tokenToSession == was.bySession - (was.TokensOf(sid) - doomed)
        invariant tokenToUser == was.byUser - (was.TokensOf(sid) - doomed)
        decreases doomed
      {
        var t :| t in doomed;
        tokenToSession := tokenToSession - {t};
        tokenToUser := tokenToUser - {t};
        doomed := doomed - {t};
      }
    }
  }
}
