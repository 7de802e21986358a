/** What one request does to its session, to the files and to the admin flag, and what is sent back.
    Source: src/server/client_controller.cpp:25-490, src/server/packets_utils.hpp. */
module Handlers {
  import opened Protocol
  import opened Files
  import Paths

  type Disk = map<string, seq<byte>>

  /** A descriptor the session holds; NoFile is any descriptor that is not an open regular file. */
  datatype Fd = NoFile | File(path: string, offset: nat)

  datatype Session = Session(id: string, dir: string, admin: bool, fd: Fd, download: Fd)

  datatype Shared = Shared(files: Disk, adminConnected: bool)

  datatype Account = Account(id: string, admin: bool)

  /** The world a server runs in: accounts by credentials, directories, and paths that open refuses. */
  datatype Config = Config(users: map<(string, string), Account>, dirs: set<string>, unopenable: set<string>)

  datatype Outcome = Outcome(sess: Session, shared: Shared, reply: seq<byte>)

  const FRESH := Session("", "", false, NoFile, NoFile)

  predicate Modelled(command: byte) {
    command in {REQ_FILE_TRANSFER_START, REQ_FILE_TRANSFER_CHUNK, REQ_FILE_TRANSFER_END, REQ_LOGIN, REQ_PING,
                REQ_LOGOUT, REQ_GET_CURRENT_USER, REQ_FILE_OPEN, REQ_FILE_DOWNLOAD_CHUNK, REQ_CURRENT_DIRECTORY,
                REQ_CHANGE_WORKING_DIRECTORY}
  }

  // ---------- replies ----------

  function Sample(command: byte): (p: seq<byte>)
    ensures IsPacket(p) && |p| == HEADER_SIZE && p[1] == command
  {
    MakePacket(command, [])
  }

  /** PacketDownloadedFileInfo: four bytes of padding, the 64-bit chunk count, the name. */
  function FileOpened(count: nat, name: string): (p: seq<byte>)
    ensures IsPacket(p) && p[1] == RESP_FILE_OPENED
  {
    MakePacket(RESP_FILE_OPENED, Zeros(4) + LittleEndian(count, 8) + Pad(Bytes(name), 256))
  }

  function LoggedIn(admin: bool): (p: seq<byte>)
    ensures IsPacket(p) && p[1] == RESP_LOGGED_IN
  {
    MakePacket(RESP_LOGGED_IN, [if admin then 1 else 0, 0])
  }

  // ---------- request fields ----------

  function StartName(data: seq<byte>): string { Text(Field(data, 20, 256)) }
  function OpenName(data: seq<byte>): string { Text(Field(data, 4, 255)) }
  function ChunkIndex(data: seq<byte>): nat { FromLittleEndian(Field(data, 8, 8)) }
  function Destination(data: seq<byte>): string { Text(Field(data, 4, 512)) }
  function Credentials(data: seq<byte>): (string, string) {
    (Text(Field(data, 4, 64)), Text(Field(data, 68, 64)))
  }

  /** snprintf into a 512-byte buffer. */
  function StartPath(dir: string, name: string): string {
    var path := dir + "/" + name;
    if |path| <= 511 then path else path[..511]
  }

  function OpenPath(dir: string, name: string): string {
    dir + "/" + name
  }

  function Content(files: Disk, path: string): seq<byte> {
    if path in files then files[path] else []
  }

  // ---------- handlers ----------

  function HandleStart(cfg: Config, data: seq<byte>, sess: Session, shared: Shared): Outcome {
    var name := StartName(data);
    if !Paths.IsValidFilename(name) then Outcome(sess, shared, Sample(RESP_IO_ERROR))
    else
      var path := StartPath(sess.dir, name);
      if path in cfg.unopenable then
        Outcome(sess.(fd := NoFile), shared, Sample(RESP_CONTINUE))
      else
        var files := shared.files[path := Content(shared.files, path)];
        Outcome(sess.(fd := File(path, 0)), shared.(files := files), Sample(RESP_CONTINUE))
  }

  function HandleWrite(data: seq<byte>, sess: Session, shared: Shared, answer: byte): Outcome {
    var body := if |data| >= HEADER_SIZE then data[HEADER_SIZE..] else [];
    match sess.fd
    case NoFile => Outcome(sess, shared, Sample(answer))
    case File(path, offset) =>
      var file := WriteAt(Content(shared.files, path), offset, body);
      Outcome(sess.(fd := File(path, offset + |body|)),
              shared.(files := shared.files[path := file]), Sample(answer))
  }

  function HandleOpen(cfg: Config, data: seq<byte>, sess: Session, shared: Shared): Outcome {
    var name := OpenName(data);
    var path := OpenPath(sess.dir, name);
    if !Paths.IsValidFilename(name) || path in cfg.unopenable || path !in shared.files then
      Outcome(sess, shared, Sample(RESP_IO_ERROR))
    else
      Outcome(sess.(download := File(path, 0)), shared,
              FileOpened(ChunkCount(|shared.files[path]|), name))
  }

  /** With no file behind the descriptor the seek fails, and the handler answers twice. */
  function HandleChunk(data: seq<byte>, sess: Session, shared: Shared): Outcome {
    match sess.download
    case NoFile =>
      Outcome(sess, shared, Sample(RESP_IO_ERROR) + Sample(RESP_IO_ERROR))
    case File(path, _) =>
      var index := ChunkIndex(data);
      var bytes := ChunkAt(Content(shared.files, path), index);
      Outcome(sess.(download := File(path, index * MAX_CHUNK + |bytes|)), shared,
              MakePacket(RESP_FILE_CHUNK, bytes))
  }

  function HandleLogin(cfg: Config, data: seq<byte>, sess: Session, shared: Shared): Outcome {
    var who := Credentials(data);
    if who !in cfg.users then Outcome(sess, shared, Sample(RESP_BAD_LOGIN))
    else
      var account := cfg.users[who];
      if account.admin && shared.adminConnected then
        Outcome(sess.(id := "", dir := ""), shared, Sample(RESP_ADMIN_ALREADY_CONNECTED))
      else
        var admin := sess.admin || account.admin;
        Outcome(sess.(id := account.id, dir := "./tmp" + "/" + account.id, admin := admin),
                shared.(adminConnected := shared.adminConnected || account.admin), LoggedIn(admin))
  }

  function HandleLogout(sess: Session, shared: Shared): Outcome {
    Outcome(sess.(id := ""), if sess.admin then shared.(adminConnected := false) else shared, Sample(RESP_OK))
  }

  function HandleCd(cfg: Config, data: seq<byte>, sess: Session, shared: Shared): Outcome {
    var dir := Paths.Cd(cfg.dirs, sess.dir, Destination(data));
    if dir == "" then Outcome(sess, shared, Sample(RESP_IO_ERROR))
    else Outcome(sess.(dir := dir), shared, Sample(RESP_OK))
  }

  /** The requests that need no login. */
  predicate Open(command: byte) {
    command in {REQ_LOGIN, REQ_PING, REQ_LOGOUT}
  }

  /** process_packet: the login gate, then the handler of the given command on the packet's snapshot. */
  function Handle(cfg: Config, command: byte, data: seq<byte>, sess: Session, shared: Shared): Outcome
    requires Modelled(command)
  {
    if !Open(command) && sess.id == "" then Outcome(sess, shared, Sample(RESP_NOT_LOGGED_IN))
    else if command == REQ_FILE_TRANSFER_START then HandleStart(cfg, data, sess, shared)
    else if command == REQ_FILE_TRANSFER_CHUNK then HandleWrite(data, sess, shared, RESP_CONTINUE)
    else if command == REQ_FILE_TRANSFER_END then HandleWrite(data, sess, shared, RESP_FILE_TRANSFER_OK)
    else if command == REQ_FILE_OPEN then HandleOpen(cfg, data, sess, shared)
    else if command == REQ_FILE_DOWNLOAD_CHUNK then HandleChunk(data, sess, shared)
    else if command == REQ_LOGIN then HandleLogin(cfg, data, sess, shared)
    else if command == REQ_LOGOUT then HandleLogout(sess, shared)
    else if command == REQ_CHANGE_WORKING_DIRECTORY then HandleCd(cfg, data, sess, shared)
    else if command == REQ_CURRENT_DIRECTORY then
      Outcome(sess, shared, MakePacket(RESP_CURRENT_DIRECTORY, Pad(Bytes(sess.dir), 512)))
    else if command == REQ_GET_CURRENT_USER then
      Outcome(sess, shared, MakePacket(RESP_CURRENT_USER, Pad(Bytes(sess.id), 255) + [0]))
    else Outcome(sess, shared, Sample(RESP_PONG))
  }

  /** Every request is answered by exactly one packet, but for a chunk request with no file open. */
  lemma ReplyIsOnePacket(cfg: Config, command: byte, data: seq<byte>, sess: Session, shared: Shared)
    requires Modelled(command)
    ensures IsPacket(Handle(cfg, command, data, sess, shared).reply) <==>
            !(command == REQ_FILE_DOWNLOAD_CHUNK && sess.id != "" && sess.download == NoFile)
  {
    if command == REQ_FILE_DOWNLOAD_CHUNK && sess.id != "" && sess.download == NoFile {
      var twice := Sample(RESP_IO_ERROR) + Sample(RESP_IO_ERROR);
      assert SizeField(twice) == SizeField(Sample(RESP_IO_ERROR));
    }
  }

  // ---------- what a request touches ----------

  /** The files whose content a request may change. */
  function Writes(cfg: Config, command: byte, data: seq<byte>, sess: Session): set<string> {
    if sess.id == "" then {}
    else if command == REQ_FILE_TRANSFER_START then {StartPath(sess.dir, StartName(data))}
    else if command == REQ_FILE_TRANSFER_CHUNK || command == REQ_FILE_TRANSFER_END then
      (if sess.fd.File? then {sess.fd.path} else {})
    else {}
  }

  /** The files whose content a request may read or change. */
  function Footprint(cfg: Config, command: byte, data: seq<byte>, sess: Session): set<string> {
    if !Open(command) && sess.id == "" then {}
    else if command == REQ_FILE_TRANSFER_START then {StartPath(sess.dir, StartName(data))}
    else if command == REQ_FILE_TRANSFER_CHUNK || command == REQ_FILE_TRANSFER_END then
      (if sess.fd.File? then {sess.fd.path} else {})
    else if command == REQ_FILE_OPEN then {OpenPath(sess.dir, OpenName(data))}
    else if command == REQ_FILE_DOWNLOAD_CHUNK then
      (if sess.download.File? then {sess.download.path} else {})
    else {}
  }

  ghost predicate SameFile(a: Disk, b: Disk, path: string) {
    (path in a <==> path in b) && (path in a ==> a[path] == b[path])
  }

  /** A login to an administrator's account: the one request that reads or sets the shared flag for a
      session that is no administrator's. */
  predicate AdminLogin(cfg: Config, command: byte, data: seq<byte>) {
    command == REQ_LOGIN && Credentials(data) in cfg.users && cfg.users[Credentials(data)].admin
  }

  /** Files a request does not write are left alone. */
  lemma HandleFrame(cfg: Config, command: byte, data: seq<byte>, sess: Session, shared: Shared, path: string)
    requires Modelled(command) && path !in Writes(cfg, command, data, sess)
    ensures SameFile(Handle(cfg, command, data, sess, shared).shared.files, shared.files, path)
  {
    hide WriteAt, ChunkAt, StartPath, OpenPath, StartName, OpenName, ChunkIndex, Destination, Credentials;
    hide Paths.IsValidFilename, Paths.Cd;
  }

  /** The same to the session and the wire, and the same to the files named; and if the flag was the same
      it still is. */
  ghost predicate Alike(x: Outcome, y: Outcome, foot: set<string>, flag: bool) {
    x.sess == y.sess && x.reply == y.reply &&
    (flag ==> x.shared.adminConnected == y.shared.adminConnected) &&
    forall path :: path in foot ==> SameFile(x.shared.files, y.shared.files, path)
  }

  /** A request that neither reads nor sets the shared flag. */
  predicate LeavesFlag(cfg: Config, command: byte, data: seq<byte>, sess: Session) {
    !sess.admin && !AdminLogin(cfg, command, data)
  }

  lemma UploadLocal(cfg: Config, command: byte, data: seq<byte>, sess: Session, a: Shared, b: Shared)
    requires command in {REQ_FILE_TRANSFER_START, REQ_FILE_TRANSFER_CHUNK, REQ_FILE_TRANSFER_END}
    requires forall path :: path in Footprint(cfg, command, data, sess) ==> SameFile(a.files, b.files, path)
    ensures Alike(Handle(cfg, command, data, sess, a), Handle(cfg, command, data, sess, b),
                  Footprint(cfg, command, data, sess), a.adminConnected == b.adminConnected)
  {
    hide WriteAt, StartPath, StartName, Paths.IsValidFilename;
    var foot := Footprint(cfg, command, data, sess);
    if sess.id != "" {
      if command == REQ_FILE_TRANSFER_START {
        assert StartPath(sess.dir, StartName(data)) in foot;
      } else {
        assert sess.fd.File? ==> sess.fd.path in foot;
      }
    }
  }

  /** A request cannot tell apart two disks that agree on its footprint, nor two flags unless it is an
      administrator's. */
  lemma HandleLocal(cfg: Config, command: byte, data: seq<byte>, sess: Session, a: Shared, b: Shared)
    requires Modelled(command)
    requires LeavesFlag(cfg, command, data, sess) || a.adminConnected == b.adminConnected
    requires forall path :: path in Footprint(cfg, command, data, sess) ==> SameFile(a.files, b.files, path)
    ensures Alike(Handle(cfg, command, data, sess, a), Handle(cfg, command, data, sess, b),
                  Footprint(cfg, command, data, sess), a.adminConnected == b.adminConnected)
  {
    hide WriteAt, ChunkAt, StartPath, OpenPath, StartName, OpenName, ChunkIndex, Destination;
    hide Paths.IsValidFilename, Paths.Cd;
    var foot := Footprint(cfg, command, data, sess);
    if command in {REQ_FILE_TRANSFER_START, REQ_FILE_TRANSFER_CHUNK, REQ_FILE_TRANSFER_END} {
      UploadLocal(cfg, command, data, sess, a, b);
    } else if sess.id != "" {
      if command == REQ_FILE_OPEN {
        assert OpenPath(sess.dir, OpenName(data)) in foot;
      } else if command == REQ_FILE_DOWNLOAD_CHUNK {
        assert sess.download.File? ==> sess.download.path in foot;
      }
    }
  }

  /** An ordinary session's request leaves the flag and stays ordinary. */
  lemma PlainLeavesFlag(cfg: Config, command: byte, data: seq<byte>, sess: Session, shared: Shared)
    requires Modelled(command) && LeavesFlag(cfg, command, data, sess)
    ensures var out := Handle(cfg, command, data, sess, shared);
            !out.sess.admin && out.shared.adminConnected == shared.adminConnected
  {
    hide WriteAt, ChunkAt, StartPath, OpenPath, StartName, OpenName, ChunkIndex, Destination;
    hide Paths.IsValidFilename, Paths.Cd;
  }

  // ---------- the session stays rooted ----------

  ghost predicate GoodIds(cfg: Config) {
    forall who :: who in cfg.users ==> Paths.GoodId(cfg.users[who].id)
  }

  /** A logged-in session works inside its own user's tree. */
  ghost predicate SessionRooted(sess: Session) {
    sess.id != "" ==> Paths.GoodId(sess.id) && Paths.Rooted(sess.dir, sess.id)
  }

  lemma HandleKeepsRoot(cfg: Config, command: byte, data: seq<byte>, sess: Session, shared: Shared)
    requires Modelled(command) && GoodIds(cfg) && SessionRooted(sess)
    ensures SessionRooted(Handle(cfg, command, data, sess, shared).sess)
  {
    if command == REQ_LOGIN && Credentials(data) in cfg.users {
      Paths.HomeIsRooted(cfg.users[Credentials(data)].id);
    } else if command == REQ_CHANGE_WORKING_DIRECTORY && sess.id != ""
      && Paths.Cd(cfg.dirs, sess.dir, Destination(data)) != "" {
      Paths.CdKeepsRoot(cfg.dirs, sess.dir, Destination(data), sess.id);
    }
  }

  /** An upload goes where a download of the same name would look exactly when the path fits its buffer. */
  lemma SamePathIff(dir: string, name: string)
    ensures StartPath(dir, name) == OpenPath(dir, name) <==> |dir| + 1 + |name| <= 511
  {
  }

  /** An upload under an accepted name goes to one more component below the session's directory: into the
      user's own tree, unless the name is a dot name. */
  lemma UploadLands(dir: string, id: string, name: string)
    requires Paths.Rooted(dir, id) && Paths.GoodId(id) && name != "" && Paths.IsValidFilename(name)
    requires |dir| + 1 + |name| <= 511
    ensures Paths.Split(StartPath(dir, name), '/') == Paths.Split(dir, '/') + [name]
    ensures Paths.Rooted(StartPath(dir, name), id) <==> name != "." && name != ".."
  {
    hide Paths.Split, Paths.Rooted, Paths.IsValidFilename;
    Paths.ValidNameAddsOneComponent(dir, id, name);
  }

  /** A cd past the login gate: the session moves where the destination says if every directory entered on
      the way is there, and stays as it was if one is not. */
  lemma CdOutcome(cfg: Config, data: seq<byte>, sess: Session, shared: Shared)
    requires sess.id != "" && SessionRooted(sess)
    ensures var from, dest := sess.dir, Destination(data);
            var to := Paths.Join(Paths.Lexical(Paths.Split(from, '/'), Paths.Split(dest, '/')), '/');
            Handle(cfg, REQ_CHANGE_WORKING_DIRECTORY, data, sess, shared) ==
            if Paths.EntersAll(cfg.dirs, from, dest) then Outcome(sess.(dir := to), shared, Sample(RESP_OK))
            else Outcome(sess, shared, Sample(RESP_IO_ERROR))
  {
    hide Paths.Cd, Paths.EntersAll, Paths.Join, Paths.Lexical, Paths.Split, Paths.Rooted, Destination;
    Paths.CdSucceedsIff(cfg.dirs, sess.dir, Destination(data), sess.id);
  }
}
