/**
 * Bullets, the bullet pool that recycles them, and the health of whatever they hit.
 *
 * A bullet is a scene object with an active flag and a lifetime timer. The pool keeps a
 * first-in first-out queue of inactive bullets and a table from each pooled bullet to its
 * rigid body. Activating an inactive bullet runs its enable hook, which restarts the timer;
 * the engine calls a bullet's per-frame update only while it is active.
 */
module Combat {
  import opened Results

  /** The physics body attached to a bullet; only its identity matters here. */
  class Rigidbody {
    constructor ()
    {
    }
  }

  /** How long a bullet lives, in seconds. */
  const Lifetime: real := 4.0
  /** The damage a bullet deals on contact. */
  const BulletDamage: real := 1.0
  /** The number of bullets the pool creates when it wakes. */
  const PoolSize: nat := 100
  /** The damage of a particle hit from an object tagged "Bullet". */
  const ParticleDamage: real := 10.0
  /** The health an object starts with unless configured otherwise. */
  const DefaultMaxHealth: real := 100.0

  /** A bullet is due back in the pool once its timer reaches the lifetime. */
  predicate Expired(timeSinceFired: real)
  {
    timeSinceFired >= Lifetime
  }

  class Bullet {
    var active: bool
    var timeSinceFired: real
    const body: Rigidbody

    /** A new copy of the bullet prefab: active, so its enable hook has just run. */
    constructor ()
      ensures active && timeSinceFired == 0.0
      ensures fresh(body)
    {
      active := true;
      timeSinceFired := 0.0;
      body := new Rigidbody();
    }

    /** Activation; turning an inactive bullet on runs the enable hook, which zeroes the timer. */
    method SetActive(value: bool)
      modifies this
      ensures active == value
      ensures timeSinceFired == if value && !old(active) then 0.0 else old(timeSinceFired)
    {
      if value && !active {
        timeSinceFired := 0.0;
      }
      active := value;
    }

    /**
     * One frame of an active bullet: the timer grows by the frame time, and the bullet goes
     * back to the pool exactly when the timer has reached the lifetime.
     */
    method Update(deltaTime: real, pool: BulletPool)
      requires active
      modifies this, pool
      ensures timeSinceFired == old(timeSinceFired) + deltaTime
      ensures pool.rigidbodies == old(pool.rigidbodies)
      ensures Expired(timeSinceFired) ==> !active && pool.bullets == old(pool.bullets) + [this]
      ensures !Expired(timeSinceFired) ==> active && pool.bullets == old(pool.bullets)
      ensures pool.destroyed == old(pool.destroyed)
      ensures old(pool.Valid()) ==> pool.Valid()
    {
      timeSinceFired := timeSinceFired + deltaTime;
      if Expired(timeSinceFired) {
        pool.ReturnBullet(this);
      }
    }

    /**
     * Contact with another collider: if it has a health component that takes one point of
     * damage; either way the bullet goes back to the pool.
     */
    method OnTriggerEnter(health: Health?, pool: BulletPool)
      requires active
      modifies this, pool, health
      ensures health != null ==>
        health.currentHealth == old(health.currentHealth) - BulletDamage &&
        health.deathRequests == old(health.deathRequests) + (if health.currentHealth <= 0.0 then 1 else 0)
      ensures health != null ==> health.maxHealth == old(health.maxHealth)
      ensures !active && pool.bullets == old(pool.bullets) + [this]
      ensures pool.rigidbodies == old(pool.rigidbodies) && pool.destroyed == old(pool.destroyed)
      ensures old(pool.Valid()) ==> pool.Valid()
    {
      if health != null {
        health.TakeDamage(BulletDamage);
      }
      pool.ReturnBullet(this);
    }
  }

  /** Where the one live pool is registered; a second pool finds it taken. */
  class PoolRegistry {
    var instance: BulletPool?

    constructor ()
      ensures instance == null
    {
      instance := null;
    }
  }

  class BulletPool {
    /** The queue of pooled bullets, front first. */
    var bullets: seq<Bullet>
    /** The cached rigid body of each bullet created when the pool woke. */
    var rigidbodies: map<Bullet, Rigidbody>
    /** Set when this pool found another one registered and asked to be destroyed. */
    var destroyed: bool

    /**
     * The pool's invariant: no bullet is queued twice, every queued bullet is inactive,
     * and the table maps each bullet to its own body.
     */
    ghost predicate Valid()
      reads this, bullets
    {
      (forall i, j :: 0 <= i < j < |bullets| ==> bullets[i] != bullets[j]) &&
      (forall i :: 0 <= i < |bullets| ==> !bullets[i].active) &&
      (forall b :: b in rigidbodies ==> rigidbodies[b] == b.body)
    }

    /** Every queued bullet has its body in the table, so a bullet taken from the queue can be launched. */
    ghost predicate Registered()
      reads this
    {
      forall i :: 0 <= i < |bullets| ==> bullets[i] in rigidbodies
    }

    constructor ()
      ensures bullets == [] && rigidbodies == map[] && !destroyed
      ensures Valid() && Registered()
    {
      bullets := [];
      rigidbodies := map[];
      destroyed := false;
    }

    /**
     * Wake-up: a pool that finds another registered destroys itself and changes nothing
     * else; otherwise it registers itself and queues PoolSize new inactive bullets, each
     * with its body in the table.
     */
    method Awake(registry: PoolRegistry)
      requires Valid()
      modifies this, registry
      ensures old(registry.instance) != null ==>
        destroyed && registry.instance == old(registry.instance) &&
        bullets == old(bullets) && rigidbodies == old(rigidbodies)
      ensures old(registry.instance) == null ==>
        registry.instance == this && destroyed == old(destroyed) &&
        |bullets| == |old(bullets)| + PoolSize && bullets[..|old(bullets)|] == old(bullets) &&
        (forall i :: |old(bullets)| <= i < |bullets| ==>
          fresh(bullets[i]) && bullets[i] in rigidbodies) &&
        (forall b :: b in rigidbodies <==> b in old(rigidbodies) || b in bullets[|old(bullets)|..])
      ensures Valid()
      ensures old(Registered()) ==> Registered()
    {
      if registry.instance != null {
        destroyed := true;
        return;
      }
      registry.instance := this;
      ghost var n0 := |bullets|;
      for i := 0 to PoolSize
        invariant |bullets| == n0 + i && bullets[..n0] == old(bullets)
        invariant forall k :: n0 <= k < |bullets| ==> fresh(bullets[k]) && bullets[k] in rigidbodies
        invariant forall b :: b in rigidbodies <==> b in old(rigidbodies) || b in bullets[n0..]
        invariant registry.instance == this && destroyed == old(destroyed)
        invariant Valid()
        invariant old(Registered()) ==> Registered()
      {
        ghost var prev := bullets;
        var bullet := AddInactiveBullet();
        assert bullets[n0..] == prev[n0..] + [bullet];
      }
    }

    /** One step of the wake-up loop: a new bullet, deactivated, queued and entered in the table. */
    method AddInactiveBullet() returns (bullet: Bullet)
      requires Valid()
      modifies this
      ensures fresh(bullet) && !bullet.active
      ensures bullets == old(bullets) + [bullet] && rigidbodies == old(rigidbodies)[bullet := bullet.body]
      ensures destroyed == old(destroyed)
      ensures Valid()
      ensures old(Registered()) ==> Registered()
    {
      bullet := new Bullet();
      bullet.SetActive(false);
      bullets := bullets + [bullet];
      rigidbodies := rigidbodies[bullet := bullet.body];
    }

    /**
     * Hands out the front bullet, activated; a pool with nothing queued makes a new bullet
     * instead, which the rigid-body table does not know.
     */
    method GetBullet() returns (bullet: Bullet)
      modifies this, bullets
      ensures rigidbodies == old(rigidbodies) && destroyed == old(destroyed)
      ensures bullet.active
      ensures |old(bullets)| > 0 ==>
        bullet == old(bullets)[0] && bullets == old(bullets)[1..] &&
        bullet.timeSinceFired == (if old(bullet.active) then old(bullet.timeSinceFired) else 0.0)
      ensures |old(bullets)| == 0 ==>
        fresh(bullet) && bullets == [] && bullet.timeSinceFired == 0.0 && bullet !in rigidbodies
      ensures forall b :: b in old(bullets) && b != bullet ==>
        b.active == old(b.active) && b.timeSinceFired == old(b.timeSinceFired)
      ensures old(Valid()) ==> Valid()
      ensures old(Registered()) ==> Registered()
    {
      if |bullets| > 0 {
        bullet := bullets[0];
        bullets := bullets[1..];
        bullet.SetActive(true);
      } else {
        bullet := new Bullet();
      }
    }

    /**
     * GetBullet with the new bullet of an empty pool entered in the rigid-body table, as the
     * wake-up loop does for the bullets it creates: every bullet handed out can be launched.
     */
    method GetBulletCached() returns (bullet: Bullet)
      modifies this, bullets
      ensures bullet.active && destroyed == old(destroyed)
      ensures |old(bullets)| > 0 ==>
        bullet == old(bullets)[0] && bullets == old(bullets)[1..] && rigidbodies == old(rigidbodies) &&
        bullet.timeSinceFired == (if old(bullet.active) then old(bullet.timeSinceFired) else 0.0)
      ensures |old(bullets)| == 0 ==>
        fresh(bullet) && bullets == [] && bullet.timeSinceFired == 0.0 &&
        rigidbodies == old(rigidbodies)[bullet := bullet.body]
      ensures old(Registered()) ==> Registered() && bullet in rigidbodies
      ensures forall b :: b in old(bullets) && b != bullet ==>
        b.active == old(b.active) && b.timeSinceFired == old(b.timeSinceFired)
      ensures old(Valid()) ==> Valid()
    {
      if |bullets| > 0 {
        bullet := bullets[0];
        bullets := bullets[1..];
        bullet.SetActive(true);
      } else {
        bullet := new Bullet();
        rigidbodies := rigidbodies[bullet := bullet.body];
      }
    }

    /**
     * Takes a bullet back: deactivates it and queues it at the back. Nothing checks whether
     * it is queued already; a bullet that was active cannot be.
     */
    method ReturnBullet(bullet: Bullet)
      modifies this, bullet
      ensures !bullet.active && bullet.timeSinceFired == old(bullet.timeSinceFired)
      ensures bullets == old(bullets) + [bullet]
      ensures rigidbodies == old(rigidbodies) && destroyed == old(destroyed)
      ensures old(Valid()) && old(bullet.active) ==> Valid()
      ensures old(Registered()) && bullet in rigidbodies ==> Registered()
    {
      bullet.SetActive(false);
      bullets := bullets + [bullet];
    }

    /** The cached body of a bullet; None where the table lookup would throw for a missing key. */
    method GetBulletRigidbody(bullet: Bullet) returns (body: Option<Rigidbody>)
      ensures body.Some? <==> bullet in rigidbodies
      ensures body.Some? ==> body.value == rigidbodies[bullet]
    {
      if bullet in rigidbodies {
        body := Some(rigidbodies[bullet]);
      } else {
        body := None;
      }
    }
  }

  class Health {
    var maxHealth: real
    var currentHealth: real
    /** How many times the object has asked to be destroyed. */
    var deathRequests: nat

    /** A new component: the configured maximum, and zero health until Start runs. */
    constructor (maxHealth: real)
      ensures this.maxHealth == maxHealth && currentHealth == 0.0 && deathRequests == 0
    {
      this.maxHealth := maxHealth;
      currentHealth := 0.0;
      deathRequests := 0;
    }

    /** A new component whose maximum was left at its default. */
    constructor Default()
      ensures maxHealth == DefaultMaxHealth && currentHealth == 0.0 && deathRequests == 0
    {
      maxHealth := DefaultMaxHealth;
      currentHealth := 0.0;
      deathRequests := 0;
    }

    method Start()
      modifies this
      ensures currentHealth == maxHealth
      ensures maxHealth == old(maxHealth) && deathRequests == old(deathRequests)
    {
      currentHealth := maxHealth;
    }

    /** Subtracts the damage without clamping; destruction is requested exactly when health is then at most zero. */
    method TakeDamage(amount: real)
      modifies this
      ensures currentHealth == old(currentHealth) - amount
      ensures deathRequests == old(deathRequests) + (if currentHealth <= 0.0 then 1 else 0)
      ensures maxHealth == old(maxHealth)
    {
      currentHealth := currentHealth - amount;
      if currentHealth <= 0.0 {
        Die();
      }
    }

    method Die()
      modifies this
      ensures deathRequests == old(deathRequests) + 1
      ensures currentHealth == old(currentHealth) && maxHealth == old(maxHealth)
    {
      deathRequests := deathRequests + 1;
    }

    /** A particle hit deals ParticleDamage when the other object is tagged "Bullet", and nothing otherwise. */
    method OnParticleCollision(otherTag: string)
      modifies this
      ensures currentHealth == old(currentHealth) - ParticleDamageFrom(otherTag)
      ensures deathRequests == old(deathRequests) +
        (if otherTag == "Bullet" && currentHealth <= 0.0 then 1 else 0)
      ensures maxHealth == old(maxHealth)
    {
      if otherTag == "Bullet" {
        TakeDamage(ParticleDamage);
      }
    }
  }

  /** The damage of a particle hit from an object with the given tag. */
  function ParticleDamageFrom(tag: string): (d: real)
    ensures d == ParticleDamage <==> tag == "Bullet"
    ensures d == 0.0 <==> tag != "Bullet"
  {
    if tag == "Bullet" then ParticleDamage else 0.0
  }

  /**
   * The launch step of a turret shot: take a bullet from the pool, then look up its body to
   * set its velocity. None means the lookup threw, which happens for every bullet an empty
   * pool creates.
   */
  method Launch(pool: BulletPool) returns (bullet: Bullet, body: Option<Rigidbody>)
    modifies pool, pool.bullets
    ensures bullet.active && pool.rigidbodies == old(pool.rigidbodies) && pool.destroyed == old(pool.destroyed)
    ensures pool.bullets == if |old(pool.bullets)| > 0 then old(pool.bullets)[1..] else []
    ensures |old(pool.bullets)| == 0 ==> body == None
    ensures |old(pool.bullets)| > 0 && old(pool.Registered()) ==>
      bullet in pool.rigidbodies && body == Some(pool.rigidbodies[bullet])
    ensures old(pool.Registered()) ==> pool.Registered()
    ensures old(pool.Valid()) ==> pool.Valid()
  {
    bullet := pool.GetBullet();
    body := pool.GetBulletRigidbody(bullet);
  }

  /** The launch step over GetBulletCached: a pool whose queued bullets are registered always yields a body. */
  method LaunchCached(pool: BulletPool) returns (bullet: Bullet, body: Option<Rigidbody>)
    modifies pool, pool.bullets
    ensures bullet.active && pool.destroyed == old(pool.destroyed)
    ensures pool.bullets == if |old(pool.bullets)| > 0 then old(pool.bullets)[1..] else []
    ensures old(pool.Registered()) ==>
      pool.Registered() && bullet in pool.rigidbodies && body == Some(pool.rigidbodies[bullet])
    ensures old(pool.Valid()) ==> pool.Valid()
  {
    bullet := pool.GetBulletCached();
    body := pool.GetBulletRigidbody(bullet);
  }

  /**
   * A fresh pool, woken, launches PoolSize bullets that are never returned; the next launch
   * finds no body for its bullet.
   */
  method ExhaustedPoolLaunchFails() returns (body: Option<Rigidbody>)
    ensures body == None
  {
    var registry := new PoolRegistry();
    var pool := new BulletPool();
    pool.Awake(registry);
    for i := 0 to PoolSize
      invariant fresh(pool) && |pool.bullets| == PoolSize - i
      invariant forall k :: 0 <= k < |pool.bullets| ==> fresh(pool.bullets[k])
    {
      var _, _ := Launch(pool);
    }
    var _, last := Launch(pool);
    body := last;
  }

  /** The same sequence over LaunchCached: the launch after the queue runs dry still finds a body. */
  method ExhaustedPoolLaunchCached() returns (body: Option<Rigidbody>)
    ensures body.Some?
  {
    var registry := new PoolRegistry();
    var pool := new BulletPool();
    pool.Awake(registry);
    for i := 0 to PoolSize
      invariant fresh(pool) && pool.Registered()
      invariant forall k :: 0 <= k < |pool.bullets| ==> fresh(pool.bullets[k])
    {
      var _, _ := LaunchCached(pool);
    }
    var _, last := LaunchCached(pool);
    body := last;
  }
}
