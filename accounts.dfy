/**
 * Models/Account.cs: the controller account read from the configuration.
 *
 * The configuration is the flattened key/value view .NET gives it: every leaf
 * setting of delegation.json under its colon-separated path.
 */
module Accounts {
  import opened Wrappers
  import opened Text

  type Config = map<string, string>

  const AccountSectionKey: string := "Delegation:Account"
  const UsernameKey: string := "Delegation:Account:Username"
  const PostingKeyKey: string := "Delegation:Account:PostingKey"
  const ActiveKeyKey: string := "Delegation:Account:ActiveKey"

  /**
   * `configuration.GetSection("Delegation").GetChildren().Any(c => c.Key.Equals("Account"))`:
   * the section "Delegation" has a child "Account" when some setting lives at
   * that path or below it.
   */
  predicate HasAccountSection(config: Config)
  {
    exists k :: k in config && (k == AccountSectionKey || StartsWith(k, AccountSectionKey + ":"))
  }

  /** `configuration.GetValue<string>(key)`: null (None) when nothing is set there. */
  function GetValue(config: Config, key: string): Option<string>
  {
    if key in config then Some(config[key]) else None
  }

  /** `!string.IsNullOrEmpty(value)`. */
  predicate Present(value: Option<string>)
  {
    value.Some? && value.value != ""
  }

  /** Which check failed; the source throws a NullReferenceException carrying the matching message. */
  datatype ConfigError = MissingAccountSection | MissingUsername | MissingPostingKey

  datatype AccountValues = AccountValues(username: string, postingKey: string, activeKey: Option<string>)

  /** The values an Account ends up with, or the first check that fails. */
  function AccountFromConfig(config: Config): (r: Result<AccountValues, ConfigError>)
    ensures r.Success? ==> r.value.username != "" && r.value.postingKey != ""
    ensures r.Success? ==>
              && Some(r.value.username) == GetValue(config, UsernameKey)
              && Some(r.value.postingKey) == GetValue(config, PostingKeyKey)
              && r.value.activeKey == GetValue(config, ActiveKeyKey)
  {
    if !HasAccountSection(config) then Failure(MissingAccountSection)
    else
      var username := GetValue(config, UsernameKey);
      if !Present(username) then Failure(MissingUsername)
      else
        var postingKey := GetValue(config, PostingKeyKey);
        if !Present(postingKey) then Failure(MissingPostingKey)
        else Success(AccountValues(username.value, postingKey.value, GetValue(config, ActiveKeyKey)))
  }

  /**
   * The checks run in the order section, username, posting key: each error is
   * reported exactly when every earlier check passed and its own fails, and
   * the configuration is accepted exactly when all three pass.
   */
  lemma AccountChecksInOrder(config: Config)
    ensures AccountFromConfig(config) == Failure(MissingAccountSection) <==> !HasAccountSection(config)
    ensures AccountFromConfig(config) == Failure(MissingUsername) <==>
              HasAccountSection(config) && !Present(GetValue(config, UsernameKey))
    ensures AccountFromConfig(config) == Failure(MissingPostingKey) <==>
              HasAccountSection(config) && Present(GetValue(config, UsernameKey)) &&
              !Present(GetValue(config, PostingKeyKey))
    ensures AccountFromConfig(config).Success? <==>
              HasAccountSection(config) && Present(GetValue(config, UsernameKey)) &&
              Present(GetValue(config, PostingKeyKey))
  {
  }

  /** A configured username under the account path already makes the section exist. */
  lemma {:induction false} UsernameImpliesSection(config: Config)
    requires UsernameKey in config
    ensures HasAccountSection(config)
    ensures AccountFromConfig(config) != Failure(MissingAccountSection)
  {
    assert UsernameKey[..|AccountSectionKey + ":"|] == AccountSectionKey + ":";
  }

  /** The active key is optional: without it a configuration is accepted the same way, with no active key. */
  lemma ActiveKeyOptional(config: Config)
    requires AccountFromConfig(config).Success?
    ensures AccountFromConfig(config - {ActiveKeyKey}).Success?
    ensures AccountFromConfig(config - {ActiveKeyKey}).value ==
              AccountFromConfig(config).value.(activeKey := None)
  {
    var k :| k in config && (k == AccountSectionKey || StartsWith(k, AccountSectionKey + ":"));
    assert UsernameKey in config - {ActiveKeyKey};
    UsernameImpliesSection(config - {ActiveKeyKey});
  }

  /** The outcome depends only on whether the section exists and on the three account settings. */
  lemma OnlyAccountSettingsMatter(c1: Config, c2: Config)
    requires HasAccountSection(c1) == HasAccountSection(c2)
    requires GetValue(c1, UsernameKey) == GetValue(c2, UsernameKey)
    requires GetValue(c1, PostingKeyKey) == GetValue(c2, PostingKeyKey)
    requires GetValue(c1, ActiveKeyKey) == GetValue(c2, ActiveKeyKey)
    ensures AccountFromConfig(c1) == AccountFromConfig(c2)
  {
  }

  /** The controller account. Its properties start out null (None). */
  class Account {
    var Username: Option<string>
    var PostingKey: Option<string>
    var ActiveKey: Option<string>

    constructor Unset()
      ensures Username.None? && PostingKey.None? && ActiveKey.None?
    {
      Username, PostingKey, ActiveKey := None, None, None;
    }

    /**
     * `ValidateConfigurationAndSetInstance`: the checks in order, each
     * property assigned right after its own check passes. A failure is
     * returned as `Some(error)`, and leaves whatever was assigned before it:
     * a missing posting key leaves the username already set.
     */
    method ValidateConfigurationAndSetInstance(config: Config) returns (err: Option<ConfigError>)
      modifies this
      ensures err.None? <==> AccountFromConfig(config).Success?
      ensures err.Some? ==> err.value == AccountFromConfig(config).error
      ensures err.None? ==> var v := AccountFromConfig(config).value;
                Username == Some(v.username) && PostingKey == Some(v.postingKey) && ActiveKey == v.activeKey
      ensures err == Some(MissingAccountSection) || err == Some(MissingUsername) ==>
                Username == old(Username) && PostingKey == old(PostingKey) && ActiveKey == old(ActiveKey)
      ensures err == Some(MissingPostingKey) ==>
                Username == GetValue(config, UsernameKey) && PostingKey == old(PostingKey) &&
                ActiveKey == old(ActiveKey)
    {
      if !HasAccountSection(config) {
        return Some(MissingAccountSection);
      }

      var username := GetValue(config, UsernameKey);
      if username.None? || username.value == "" {
        return Some(MissingUsername);
      }
      Username := username;

      var postingKey := GetValue(config, PostingKeyKey);
      if postingKey.None? || postingKey.value == "" {
        return Some(MissingPostingKey);
      }
      PostingKey := postingKey;

      var activeKey := GetValue(config, ActiveKeyKey);
      ActiveKey := activeKey;
      return None;
    }
  }

  /** `new Account(configuration)`: the validated account, or the error its constructor throws. */
  method NewAccount(config: Config) returns (r: Result<Account, ConfigError>)
    ensures r.Success? <==> AccountFromConfig(config).Success?
    ensures r.Failure? ==> r.error == AccountFromConfig(config).error
    ensures r.Success? ==> fresh(r.value)
    ensures r.Success? ==>
              var v := AccountFromConfig(config).value;
              r.value.Username == Some(v.username) && r.value.PostingKey == Some(v.postingKey) &&
              r.value.ActiveKey == v.activeKey
  {
    var account := new Account.Unset();
    var err := account.ValidateConfigurationAndSetInstance(config);
    if err.Some? {
      return Failure(err.value);
    }
    return Success(account);
  }
}
