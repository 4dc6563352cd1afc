/** Under which key the Abbenay token is found after an edit of the spec. */
module TokenKeys {
  import opened ObjectNames
  import opened Resolve
  import opened Cluster
  import opened Manifests
  import opened Plan
  import opened Machine
  import opened Passes
  import opened SecretContents

  /** The intent has the operator generate the token of an enabled Abbenay. */
  predicate GeneratesToken(inst: Instance, d: Desired) {
    d.abbenay.generateToken && d.name == inst.name && d.abbenay.tokenName == inst.name + "-abbenay"
  }

  function TokenSecret(inst: Instance): Key { Key(Secret, inst.name + "-abbenay") }

  /** After its step, which succeeds, the token can be read under the key that the Pod reads exactly when the Secret was missing
      or already had text there. */
  lemma TokenReadableIff(inst: Instance, d: Desired, store: Store, i: Input)
    requires GeneratesToken(inst, d) && Drawn(i.material) && ItemPass(inst, d, EnsureAbbenayToken, store, i).ok
    ensures var k := TokenSecret(inst); var n := At(ItemPass(inst, d, EnsureAbbenayToken, store, i).store, k);
            n.obj.Some? && (Under(n.obj.value, d.abbenay.tokenKey) != ""
                            <==> At(store, k).obj.None? || Under(At(store, k).obj.value, d.abbenay.tokenKey) != "")
  {
    var k := TokenSecret(inst);
    assert Reads(inst, d, EnsureAbbenayToken, store) == [At(store, k)];
    if At(store, k).obj.None? { CreatedToken(inst.uid, At(store, k), d.abbenay.tokenKey, i.material.token); }
  }

  lemma CreatedToken(uid: Uid, s: Slot, key: string, token: string)
    requires s.obj.None?
    ensures var r := Created(s, uid, TokenPayload(key, token));
            && r.Done? && r.slot.obj.Some? && Under(r.slot.obj.value, key) == token
            && forall other :: other != key ==> Under(r.slot.obj.value, other) == ""
  {
  }

  /** So an edit of the key is not followed: the Secret made for one key has nothing under another, however often the step is
      done again. */
  lemma EditedKeyNotFollowed(inst: Instance, d: Desired, d': Desired, store: Store, i: Input, i': Input)
    requires GeneratesToken(inst, d) && GeneratesToken(inst, d') && d'.abbenay.tokenKey != d.abbenay.tokenKey
    requires Drawn(i.material) && Drawn(i'.material) && At(store, TokenSecret(inst)).obj.None?
    ensures var o := ItemPass(inst, d, EnsureAbbenayToken, store, i);
            var o' := ItemPass(inst, d', EnsureAbbenayToken, o.store, i');
            && o.ok && o'.ok && o'.store == o.store && At(o.store, TokenSecret(inst)).obj.Some?
            && Under(At(o.store, TokenSecret(inst)).obj.value, d'.abbenay.tokenKey) == ""
  {
    var k := TokenSecret(inst);
    CreatedToken(inst.uid, At(store, k), d.abbenay.tokenKey, i.material.token);
    assert Reads(inst, d, EnsureAbbenayToken, store) == [At(store, k)];
    var o := ItemPass(inst, d, EnsureAbbenayToken, store, i);
    assert Reads(inst, d', EnsureAbbenayToken, o.store) == [At(o.store, k)];
  }
}
