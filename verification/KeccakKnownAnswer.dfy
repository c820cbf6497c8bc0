/**
 A known answer: the Keccak-256 digest of the empty message, by evaluating all 24 rounds.
 */
module KeccakKnownAnswer {
  import opened PyInts
  import opened Fips202
  import opened KeccakTables
  import opened Words64
  import opened KeccakWords
  import opened TracePy

  // Of round r: S<r> the state, C<r> its column parities, T<r> those turned by one, M<r> the
  // state after theta, rho and pi.

  const S0 := Words(
    0x0000000000000001, 0x0000000000000000, 0x0000000000000000, 0x0000000000000000, 0x0000000000000000,
    0x0000000000000000, 0x0000000000000000, 0x0000000000000000, 0x0000000000000000, 0x0000000000000000,
    0x0000000000000000, 0x0000000000000000, 0x0000000000000000, 0x0000000000000000, 0x0000000000000000,
    0x0000000000000000, 0x8000000000000000, 0x0000000000000000, 0x0000000000000000, 0x0000000000000000,
    0x0000000000000000, 0x0000000000000000, 0x0000000000000000, 0x0000000000000000, 0x0000000000000000)

  const C0 := Columns(0x0000000000000001, 0x8000000000000000, 0x0000000000000000, 0x0000000000000000, 0x0000000000000000)
  const T0 := Columns(0x0000000000000002, 0x0000000000000001, 0x0000000000000000, 0x0000000000000000, 0x0000000000000000)
  const M0 := Words(
    0x0000000000000000, 0x0000100000000000, 0x0000040000000000, 0x0000000000000000, 0x0000000000008000,
    0x0000000000000000, 0x0000000000200000, 0x0000000000000008, 0x0000300000000000, 0x1000000000000000,
    0x0000000000000002, 0x0000000000000020, 0x0000000000000000, 0x0000000000000200, 0x0000000000040000,
    0x0000000010000000, 0x0000001000000000, 0x0000000000000400, 0x0000000000004000, 0x0000000000000000,
    0x2000000000000000, 0x0000000000000000, 0x0000010000000000, 0x0000020000000000, 0x0000000000000004)

  const S1 := Words(
    0x0000040000000001, 0x0000100000000000, 0x0000040000008000, 0x0000000000000000, 0x0000100000008000,
    0x0000000000000008, 0x0000300000200000, 0x1000000000000008, 0x0000300000000000, 0x1000000000200000,
    0x0000000000000002, 0x0000000000000220, 0x0000000000040000, 0x0000000000000202, 0x0000000000040020,
    0x0000000010000400, 0x0000001000004000, 0x0000000000000400, 0x0000000010004000, 0x0000001000000000,
    0x2000010000000000, 0x0000020000000000, 0x0000010000000004, 0x2000020000000000, 0x0000000000000004)

  const C1 := Columns(0x200005001000040b, 0x0000221000204220, 0x100005000004840c, 0x2000320010004202, 0x1000101000248024)
  const T1 := Columns(0x40000a0020000816, 0x0000442000408440, 0x20000a0000090818, 0x4000640020008404, 0x2000202000490048)
  const M1 := Words(
    0x1000503000640465, 0x90c1300003f00102, 0x2631220002308101, 0xa40209b888860004, 0x0e000c0012841800,
    0x0004d84443000252, 0x80030204a1470003, 0x8002a18003202330, 0x2982600001e20201, 0x080008e2040418c4,
    0x00003e0020121826, 0x0011840808318b14, 0x40009b0c8c60004a, 0x00381030004a1460, 0x54c001901190c001,
    0x01800650a3000140, 0x064046c100054300, 0x003c00402438cc00, 0x2308101061122000, 0x4410002720004d84,
    0x1000108408081189, 0x2218000a900026c2, 0x02251a30001c0018, 0xc800c82000a86020, 0x000034004024304c)

  const S2 := Words(
    0x36305230006404e6, 0x10c339b88b760106, 0x2c31260010309901, 0xb402598888e60461, 0x8ec12c0011141902,
    0x000479c441202162, 0xa9834204a1850002, 0x8002a96207243bf4, 0x2986b00442e20013, 0x88030ae2a44318c5,
    0x40002504a452186c, 0x00298438083b9f34, 0x14c09a8c9df0c04b, 0x00382e3020480c46, 0x54d1819819b14311,
    0x01bc065087388d40, 0x254056d141076300, 0x442c006724388184, 0x22881640e2122040, 0x425040a620050f84,
    0x10250ab408141191, 0xea18c00a90a046e2, 0x02252e3040181054, 0xd800c8a408a061a1, 0x2218340ad024160e)

  const C2 := Columns(0x67ad02146a3aa139, 0x7631695ff36fbbd2, 0xfefa3bb9eec4f36e, 0x6734195800fe49d5, 0x325bd3d65cc75b5c)
  const T2 := Columns(0xcf5a0428d4754272, 0xec62d2bfe6df77a4, 0xfdf47773dd89e6dd, 0xce6832b001fc93aa, 0x64b7a7acb98eb6b8)
  const M2 := Words(
    0xe8095359ba7c281e, 0x647e633da3763163, 0x1f419d64ce0b1b7b, 0x4ab6ab0cb2d718b1, 0x8a5e812bc76a629d,
    0xddfac41b72e4fc59, 0x79270c81362206d1, 0xf1c92368f251a4a4, 0x849c97e32476ded6, 0x974f8ebbf6516705,
    0x153499be798a8dc5, 0x16fca37d6dc4e30e, 0x4aee04932134eb64, 0x3e5dd6f48e0423ea, 0x2f76c830f5a73870,
    0x862cf8952935798b, 0xb380d9ade3d78adf, 0xc3c57efe23634269, 0xadc46b55d4fe7e3a, 0x77424d54b15fea24,
    0x651a1f7bf8a8ec5e, 0xe2d9e596088ad422, 0x9d245b7e5fce7466, 0x414371bf0a0e727a, 0xc106d5b49c4c0419)

  const S3 := Words(
    0x7308cf19f675a28c, 0x24c8413593a231e3, 0x9f099d478b237977, 0x2ab7f95c8ac310b3, 0x8e28a10fc66873fc,
    0x5d32e773b2b55c7d, 0x7d33980232045c83, 0xe28a2b70205085a5, 0xcc2cd7e324d2468e, 0xb74a863bf2536585,
    0x5d369d3c79ba85a5, 0x22ed7119e3c4e384, 0x4bcc0c935097f374, 0x2e5dc77a860ca66f, 0x2dbeea71f1e35a7a,
    0xc669dec7291539ab, 0x9f80d8ac374bb6cd, 0x91c77afe0262c26d, 0x2de8dbd4dcde6fb1, 0x46c24c7c739d6870,
    0x783e0513afeccc1a, 0xa29ac517088ad63a, 0x1d20df7ecb8e7067, 0x655b7bf46aae9a3c, 0x43c735309c4e1439)

  const C3 := Columns(0xcd5b6e82bb838ee5, 0x460cb5957da3ee13, 0xbaa81f243208bdac, 0x807549e59e6d05df, 0x11d9b4092a0b304a)
  const T3 := Columns(0x9ab6dd0577071dcb, 0x8c196b2afb47dc26, 0x75503e4864117b59, 0x00ea93cb3cda0bbf, 0x23b3681254166094)
  const M3 := Words(
    0xeec8103a27394ee0, 0x6a93fc538c8c8ed9, 0x70b6c0695156688f, 0x9c57581651369e75, 0x28741d49030b5641,
    0xaecddcd8bb3ac8e6, 0x2db1b397d91ad891, 0x07b210fd47b34e4e, 0x286e24f1710cdd1b, 0x6b78df24115ef2b9,
    0x398623fe986188bf, 0x1b034b984a580269, 0x99c024f6af6e8d60, 0x01d89c9af770645c, 0x68c1fa8081db97fb,
    0x7978135f44a759af, 0x3f9b011c0f238506, 0x98874cf15858e26b, 0xae50218d93e0eb90, 0x04fc400cc20cb047,
    0xf67beec67296a736, 0xdb2a9bd06aa1664d, 0x44a1371bbebf488c, 0xb3ab8eb75203c9f0, 0x6a4657775c608e18)

  const S4 := Words(
    0x7eec1012f66baee6, 0xe6d2e4458cac18a9, 0x5096c520535f288f, 0x5adf5824750696d5, 0x2867f1088b8fd658,
    0xaccfdcb0bd9bcea8, 0x05fd9797e9164980, 0x44a2cbf947e16cee, 0xaceb2429db2cd55d, 0x6a48fc23515ee2a8,
    0xb94607983d4705bf, 0x1b1bd3901a486275, 0xf1c146f6afe51ec3, 0x10de9de4ef506c58, 0x6ac0b280c3c395bb,
    0xf97c5fbe14ff3bc6, 0x19cb20108c838c96, 0x982b0cf11854f22c, 0xd75032de9743a238, 0x027f400cc90c3447,
    0xf2facacde688afb6, 0x682013742aa1e73d, 0x0ce5665bb2df4e84, 0x279226377095e8d6, 0x634646675441ce51)

  const C4 := Columns(0x60e35e4984c0f181, 0x89df9326d9d058f7, 0x713b228511d0e60a, 0x1628f500a6ac653e, 0x49d6b9c0845f5b5d)
  const T4 := Columns(0xc1c6bc930981e302, 0x13bf264db3a0b1ef, 0xe276450a23a1cc14, 0x2c51ea014d58ca7c, 0x93ad738108beb6ba)
  const M4 := Words(
    0x24858f9fc1944454, 0x7741587688cd44e7, 0x6c6242a279fe89db, 0x7b51c5be5106b8cc, 0x03fd3edb121b6d2a,
    0x06c68c665b849092, 0x5b0fe736494bda6b, 0x197cc0a855c7786f, 0x5620736bc76a657c, 0xf52d63ef84cafb81,
    0xc88ffe0c579a4a78, 0x4b2cb7b4da7f9978, 0xc1ec7c79d1e49199, 0x91099f6621b27bd5, 0x550345dd1412a24d,
    0xd925128327fc4dc4, 0xa64241af6a6433d8, 0x3b234ef4a57f8266, 0xbaeb466e30539ed2, 0x66c504773369fbb8,
    0x3d462f01f1f5ee81, 0xf6a73eba96e12142, 0x7709c3de977d89b6, 0x01a2e9462b806646, 0xaad420de37036aa3)

  const S5 := Words(
    0x2ca78d1fb0a64dc7, 0x6450dd6a88cd74e3, 0x6cce78e37be7ccf9, 0x5f5144ba9082b898, 0x50bd6ebb1a526d89,
    0x06b68cee4f00b096, 0x1d0fd475cb63df7b, 0xb871c02c5547e2ee, 0x54e2ff6b9c6e656e, 0xac2400ff8481b1e8,
    0x484fb645561a4af9, 0x5b2d34b2fa6df33c, 0x85ee3ce0c5e41191, 0x19852566623a33e5, 0x5623446d9c77334d,
    0xc0041cd3a2e7cde2, 0x268a41a57a642f48, 0x7f274ee5a657e34e, 0x23cb54ee34c79a96, 0x4087455b7b69c9a0,
    0x3c4eee45f0e96635, 0xf60516babe614702, 0xdd5dc346837e8117, 0x14a0e647eb74e246, 0x6875306431036be1)

  const C5 := Columns(0x9e144522fbb21c7f, 0xf2fd6ab27dc630ee, 0xf32b098cce6d5ddf, 0x255d2c1eb16596c3, 0x82485f1648ce4d6d)
  const T5 := Columns(0x3c288a45f76438ff, 0xe5fad564fb8c61dd, 0xe65613199cdabbbf, 0x4aba583d62cb2d86, 0x0490be2c919c9adb)
  const M5 := Words(
    0x4b15076d03e46177, 0xb78bb654d824eac0, 0x4867c9ed48737ed7, 0x69cd66cbb25a8e1c, 0x258fddc0b1775c40,
    0xacf737f9ca8eaf31, 0x6a4c2801fd4b551a, 0x7fe9e1bf2ac33249, 0x91110bd902f3c3a1, 0xeca35e39338e738f,
    0x382516a3df4ba646, 0x0dbca8d292bfe180, 0x8c7b97e9c3dc7d25, 0xf2e3003d68679c59, 0x90dd0ead2a156ff1,
    0x02e29e1daa4e4647, 0xc429c266104069cf, 0xbd8a26741553f08d, 0x3e355cad7f1363b0, 0x42e31b51e7b48525,
    0x7522529b193ab464, 0x3551aca465e1cfd1, 0x3b4eb8a7ab711b6d, 0x4bc2a54f6d2d4223, 0x391d02076427830a)

  const S6 := Words(
    0x03714ec483b77561, 0x960390566a2c6ac8, 0x4c6550ed49562e97, 0x23dd64e6b0daaf2b, 0x91056dd06977d6c0,
    0xb956f647c80e8d70, 0xea5c2241fd7b94ba, 0x134bb59f1bcf0247, 0x91452a19caf34f91, 0xaeab563906cf2385,
    0xb866018a9e0bba63, 0x7f3ca8c6ba9c61d8, 0x8c679969c1cc1e85, 0xdac3103fbd2d1c5f, 0x9545a6fd2aa12e71,
    0x3b60ba0daf5dd647, 0xc61c9aef7a406aff, 0xfd48252495f77488, 0x3e35d8a1775921f2, 0x86ea5b33f7b4acad,
    0x7f2c4298932aa448, 0x75d1a9ec21ed8fd3, 0x0b53baa7ab739a65, 0x0fe0f5d774357647, 0x394cae2300e6c89b)

  const C6 := Columns(0x460d419ce9c5307d, 0xb0ae29d276667a86, 0x2552e398add1dcb8, 0x598e73b6c468ab50, 0x154d6804b24bbf02)
  const T6 := Columns(0x8c1a8339d38a60fa, 0x615c53a4ecccf50d, 0x4aa5c7315ba3b970, 0xb31ce76d88d156a0, 0x2a9ad00964977e04)
  const M6 := Words(
    0x77607564dd303f6e, 0xd1db7e6f4a4ec4f1, 0xd9951c7eaabeb1fb, 0x6617c3f069c63fbd, 0x17ab05c100cc7b36,
    0x7799c0d972c15577, 0x6b6112de82f7b3fa, 0x63b9d15604678366, 0xdc7e595683885904, 0x611c2e830ab896c8,
    0x35562df7b095c78b, 0x3e5ec8395e0b9844, 0x5ce8d77dc7aa1647, 0x7eabbce056670753, 0xe4e336b7b91c2cf5,
    0xfbf4a8eb52248cea, 0x689c77fcd47cde79, 0x50b9ac23eba355ce, 0x75cdb5a02c577f7d, 0xfb0028c646bd73d4,
    0x53f5e794adf840ac, 0x96cf468cc401daf6, 0xa1f2eda068ab391e, 0xb538909ee3035be3, 0xe5e4bd064e2c1b79)

  const S7 := Words(
    0xff647574fd808ee5, 0xf7d9bdef0b0ecaf5, 0xc83d187faab6f1f9, 0x0657b3d4b4f63bf5, 0x97300fca0282bba7,
    0x770101d976c15573, 0xf7271ade017febfa, 0x42b9f7d70c5705ae, 0xcaff990ef3c91833, 0x697c3c858a8e3440,
    0x75f63ab33135c188, 0x1c5de0b94e4e9954, 0xdca8d56a6eb23ee3, 0x6fbfb5a056e6c459, 0xeeebf6bff71634b1,
    0xebd520e879a78d6c, 0x4dd8667cd028f448, 0xdab9a465a90b554e, 0x753935893c57f357, 0xfb087fd2c2e521c5,
    0x72c54eb4855261a4, 0x82c7569247019817, 0xe136c0a064873906, 0xa729d20e42d31b67, 0x61eebd0e0e2d812b)

  const C7 := Columns(0x648320424681f6d6, 0xd3bc7766d316d404, 0x6da35e0705dfa6fc, 0x710778fd6f5d0faf, 0x8a41072cb3d21bb8)
  const T7 := Columns(0xc90640848d03edac, 0xa778eecda62da809, 0xdb46bc0e0bbf4df8, 0xe20ef1fadeba1f5e, 0x14820e5967a43771)
  const M7 := Words(
    0xd25d9c95e87f3d54, 0x150d448e286924c4, 0xf7adcf68d29fb318, 0xbaebc58c5b41830c, 0xe15dfb1cd8ca367b,
    0xad68daa787f76e38, 0x4fc68d0d643d17d0, 0xc67e9a91265391ca, 0xc9ecde43bf4613a2, 0x9a1088c78d257e4b,
    0x903843468c60e3b6, 0xc2dc52c07ef3bd1c, 0xfc693aaba82d3dcb, 0x0947ab20bbc3c643, 0x9d5642b748557ff2,
    0x9f06e2cd217989bd, 0x33ee6c25a38e8386, 0x61f3d40dc089ea8e, 0x917cd253cf0a7585, 0xeade08825020a88a,
    0xfe63e7b8e9c68ea8, 0xdf59ef64a848d944, 0xa46b592b7567630a, 0xb07dbb8dd99212d8, 0xf40b2b7828fc8ce4)

  const S8 := Words(
    0xb0fd17f53ae92e45, 0x1d4f440a212924c0, 0xb6b9f5785215876b, 0xa8ebc10d7b748a08, 0xe45dbb16d8ca36fb,
    0x2d50c83785b5ee32, 0x4646c94ffd3915f0, 0xd46e9a152672fd83, 0xec848c63bd941392, 0xd8968dcfed2d6f8b,
    0xac196b6d0c6ce375, 0xc3dad3c06d317f1c, 0x68797a3ce839047b, 0x096faa603fe34647, 0xdf9252373ac663fa,
    0xdf1772c56178e1b5, 0xa3e26e77ac8c9687, 0x0b71dc8dd0a96284, 0x847c301eee5374b0, 0xca3604a2d2a6aa88,
    0xde41f7b3bce1aca2, 0xcf4d4de020d8c994, 0xe069595b550bef2e, 0xba1d7f0d189010d0, 0xf513233c28f4dda0)

  const C8 := Columns(0x30e231d96ea96e15, 0xf47c7d123d75113f, 0xe1b6908719fcf339, 0x7361a81d0fc0bbbd, 0xdc7c4370f5734da2)
  const T8 := Columns(0x61c463b2dd52dc2a, 0xe8f8fa247aea227f, 0xc36d210e33f9e673, 0xe6c3503a1f81777a, 0xb8f886e1eae69b45)
  const M8 := Words(
    0x8479aea1b5704198, 0x99d96b5c9d998a06, 0x6b11f3d632b8a656, 0xcf03a923999ba644, 0xba24fe99ae8df9ed,
    0xb886ee274f1a5d76, 0x6603fbf081cca334, 0xc4ee91cc1fac6544, 0x83dc2a0dafd41e3b, 0x7e5ace8e6efff12d,
    0xdd80a9baf8f3594d, 0xb46dcf4121a6f1b1, 0x0d99f25c76a04378, 0x93cf0d0034cd1fd8, 0x3b9ccde30dffab15,
    0xc852c28b67b7c385, 0xa2c81ef19d471630, 0x570c5cc187dde8c1, 0x78d2f92e82608ce7, 0xace353696beb8a78,
    0xa901b6141c38784b, 0xf75ae54d02a7473d, 0x2a0236e69bcccc74, 0xc31cd1d7279723dd, 0xf30974ddf62107c8)

  const S9 := Words(
    0xe6793e2397506542, 0x1ddb637d149a8a06, 0x5b35a54e14bcffff, 0xcb5aa90388eba654, 0xa3a4bfc5a60473eb,
    0x386aee2b513a1936, 0x6513d1f1219cb90f, 0xb8ec554e5f878440, 0x03580a2caed41269, 0x385bdf5eee3b532d,
    0xd41099a6aef35b05, 0x262bc24121ebed31, 0x258932bf7f92e37d, 0x57cf2d18c4cd4f90, 0x1bf18ba20cfb0ba5,
    0x9d56828b652f2b44, 0x8a1abfdf9d671216, 0xd32d5e80ee56ead9, 0x38c279ac8674cd62, 0x8e6b4f19f3ab9e48,
    0xa101a4b68570f00b, 0x3646245c26b464b4, 0x1a0312ee4becc874, 0xcb1c53d72f8f5bde, 0xa5533594f4a600fc)

  const C9 := Columns(0x36546f9388c6fc3e, 0xe2bfeb4eaf3ea89a, 0x0f7e8ed19113ba6f, 0x6c13a44c4b096d11, 0xab3691b443c9b5d7)
  const T9 := Columns(0x6ca8df27118df87c, 0xc57fd69d5e7d5135, 0x1efd1da3222774de, 0xd82748989612da22, 0x566d236887936baf)
  const M9 := Words(
    0x8830790a8ae481a0, 0xd31ef4dbaa3c18b7, 0xf48e28f88c8b4a35, 0x82b21e83944c3a3a, 0x13bfeb88a564697a,
    0xa9e6b7794924904b, 0x435b4bfc64038e0a, 0xd2cef47d9a3dff3d, 0xd35ed45679bde6f0, 0x841376270e581759,
    0x6ae4229b7cf605cc, 0x9d3da619aafdbe20, 0x43a49b3ca01db901, 0xd03472a92f0b258e, 0x8e7e631053a73d23,
    0x77e407343518fe25, 0xc8efdd45623a9024, 0x0ac1c62c2997443a, 0xfeab6bbd4c30f4da, 0x1e920ffe6e390f8a,
    0xd86b41a60b642351, 0xd4ad25d3cadc2a61, 0x3fcf640da57864ab, 0x379f4de63f8b44f1, 0x7bbd59b23157b150)

  const S10 := Words(
    0xacb0712a8e67c328, 0xd12ee2d8ba7828bd, 0xe583c9f0adab0b75, 0x0ab20e819eccbaba, 0x40b16f59857c716d,
    0x39620378d318e17e, 0x424b4bfe05838eca, 0xd6cfd65c9c7dee34, 0xfaba550e389966f2, 0xc60a3ea32a5b1959,
    0x28643bbf7cf604cd, 0x0d2dc698a5ffbaae, 0x4dee9a2cf0b9a120, 0xb0b47222035b2542, 0x1b67e710d1ae8703,
    0x75e4051c3c9dba3f, 0x3cc5f4d4261a20e4, 0x0ad1c26e0b9e4f3a, 0x9fcf6bbd5d3004ff, 0x9699d7bf2c1b0f8a,
    0xf32901aa2e4467db, 0xd4bd2c31d05f2a31, 0x77ef741da52cd5ab, 0xb7dd4de235ab46f0, 0x7f397de3f1cfb970)

  const C10 := Columns(0x3b7b4d5b3350fb7f, 0x7630b75bec41160c, 0x039c33f36fdddef0, 0x68ae0ff2cd95bb05, 0x747c1cb6a35d59cd)
  const T10 := Columns(0x76f69ab666a1f6fe, 0xec616eb7d8822c18, 0x073867e6dfbbbde0, 0xd15c1fe59b2b760a, 0xe8f8396d46bab39a)
  const M10 := Words(
    0x34ad032bf5b8b6fd, 0x8c8557e086143e96, 0x9e0937541194943e, 0x246e8aed32ae956c, 0x7a29d6befd22d858,
    0xfb7abd7d0e1d6041, 0xbe7816f54a2d852a, 0x83ca4df0394b88c5, 0x2ccf6010dbcd395e, 0xba107b947a48d6b5,
    0xdadb90caad26dc45, 0x68dfb8bac5e38c9c, 0x7854789050b7a0f1, 0xc142fb872f427188, 0xcead566c4839acd1,
    0xe97241e4b2f74fd0, 0x8c794aba17f7179a, 0xbbb0952453f0c4c5, 0xb5683e7a179e56de, 0x9a5cb9477c1ccc2b,
    0xd0bbd853b6b05adc, 0xcc08ef2fc808ff05, 0x4d657c029fb92a3d, 0x859fd5dbf2ee3a8e, 0xa3f81a30f2d1b2bb)

  const S11 := Words(
    0x26a5233f6438b6dc, 0xace3df49a43e3fd6, 0xc4086346dc94dc2e, 0x20ea8bec3236b3c9, 0xf229827eff26d05a,
    0xfaf8f47d3f5f6884, 0x927d36f588a9b430, 0x11da5674194b4e64, 0x6da5e479dfd8191e, 0xbe1079143a68539f,
    0xcadbd0cabd32fc24, 0xe9dd3bbdeaa3dd94, 0x76f97cf8108e2ca0, 0xd1107b058a44218c, 0xeea97e5c08f8ac49,
    0xdaf2d4e0f2f78f95, 0x883160e013f90580, 0xb1a414213bf04ce4, 0xd44a7eda957d550e, 0x9e55b35d791cdc21,
    0xd1dec853a1015ae4, 0x4c926ef6a84eef87, 0x6f0576229fa8aa0c, 0xd59c1598f6ce72ca, 0xaff83d1cbad917ba)

  const C11 := Columns(0x1daa1b3bb5a3f70d, 0x13e0dc177d83bc75, 0x7d8a2bc971095802, 0x9d897fd20419ac9f, 0x933d0b770e73e417)
  const T11 := Columns(0x3b5436776b47ee1a, 0x27c1b82efb0778ea, 0xfb145792e212b004, 0x3b12ffa40833593f, 0x267a16ee1ce7c82f)
  const M11 := Words(
    0x92599066914c2a21, 0x8f33974c37a5cdf1, 0xf64f52f05afa5b29, 0x7fbf1278a471f748, 0x5d2e7561d54fc249,
    0xb5fd823e47b1ab6c, 0x0b15536111a18cd3, 0xf13b1c9a423306cb, 0x08512dd1e5892889, 0xc8feeab23d4309e8,
    0x94bb27c1e71ef1be, 0x4a1d71db3eeacb8e, 0x45cf55634315c08c, 0x88faf816429ea438, 0xec2951d718659489,
    0xdc83c496faa7a65e, 0xa2bf4794e044724c, 0x8ddc52f44a6a743d, 0x1bc9272054d74cab, 0xe78e6c28bf9b20e2,
    0x3b3e903d6a490e59, 0x999b2aecaf591b44, 0xd37766243a1bfcb3, 0x0626d0dc1ccf720f, 0xa8b0897ffffea23a)

  const S12 := Words(
    0xe215d0d659163823, 0x8683974493a469b1, 0xf64f37f10bf45b28, 0xfdee927ea471df68, 0x500c7269f3ee0799,
    0x45d78ea405a3a964, 0x03557220b429a4d3, 0x3195deb85a7107ab, 0x3d502ddda7398a8d, 0xc2febbf32d430d7b,
    0x917923e1a60bf1be, 0xc22dd9cf3e60efbe, 0x21ce54a25b74d00d, 0x9868de16a584c50e, 0xa62d01cd00859e89,
    0xd1c3d4f6f08da26f, 0xb0be6294f4d17ace, 0x69da1afce162547d, 0x03c8a7b614f3cab7, 0xc5b26f28bfdb70e2,
    0x795ad43d7a4beaea, 0x9d9bba34ab9d1948, 0x7be76f07d92b7c83, 0x1528c0dc1cce7e4e, 0x2831a3bf7aeeb33e)

  const C12 := Columns(0x9e227d587078287c, 0x6adee40b46a1415a, 0xf429c81032b8a470, 0x4e3606dfaef12412, 0xd95c04c01b1d57b7)
  const T12 := Columns(0x3c44fab0e0f050f9, 0xd5bdc8168d4282b4, 0xe8539020657148e1, 0x9c6c0dbf5de24824, 0xb2b80980363aaf6f)
  const M12 := Words(
    0xeef41c00cf49ed20, 0x0c44e75249f58a12, 0xbecb9ebbe5e8b201, 0xc4c20e383508ab2c, 0xd7f40d3bf1f55690,
    0xea0f3d477bb7f53e, 0x79c63427990b08c4, 0xecc779b982a125ec, 0x034a78d9f1fd9c3b, 0xb1aab0d6784d0ebf,
    0xe1e4f4790d5a1259, 0xc9cdc3104c83b571, 0x0d420d9c23bdf23f, 0xc09347f1da0409b7, 0x63afb050ffa5d6ec,
    0x35ef7b9b9113f470, 0x3fc7c67493642729, 0x70d2dcada63c8ed1, 0x79a47d10ae81cfb4, 0x5153b9014c184c75,
    0x803f7791442dd495, 0xc93de0f626d1ddc0, 0x4275316a2ffed127, 0xa4eed9ba443040cd, 0xafa95d32fa51e757)

  const S13 := Words(
    0x5c7f04a9eb415daa, 0x4c44e75259f5833e, 0xadff9fb8251de691, 0xecc21e383b00020c, 0xd7f4ee69f1415482,
    0x6e0e74df7917d016, 0x7ace3467e85790d7, 0x5c67f9bf8aa12768, 0x494f75d8f24f6d3b, 0xa06ab0f6f845067f,
    0xe5e6f8f52e665057, 0x095c81719483bcf1, 0x2e6ebd9c061c2477, 0x40d303d8da5e09a6, 0x6ba6b350bf2473cc,
    0x75ff6312b50b7ca0, 0x36e3e7649be5660d, 0x70815cace6248e90, 0x5d083f8a3f827fb4, 0x5b533d654e7c4f7c,
    0x827f66994d03d4b2, 0x6db7286666d1dd08, 0x4974356a95bf7635, 0xa4f8fb3b401c504d, 0xe6a9dd54d881ee17)

  const C13 := Columns(0x20178d08443875f9, 0x64829d46d815141d, 0xe603b25dda3b1d2b, 0x1caeac896c8f4968, 0xa1c20dfe20dd805a)
  const T13 := Columns(0x402f1a108870ebf2, 0xc9053a8db02a283a, 0xcc0764bbb4763a57, 0x395d5912d91e92d0, 0x43841bfc41bb00b5)
  const M13 := Words(
    0x34b833da7bb6f5ca, 0x9df7996deddd4181, 0xbd15d39d8bce4038, 0xc574804c455f11f2, 0x1af34f1f93236e8a,
    0x9a0801f924945b79, 0x66f1cbaa4e5fceb0, 0x690e7c35f48fc1bc, 0x65347b5e61daed75, 0x02957e27d2969e1f,
    0x40a81dc353779921, 0x6e0f7ae2eaa86940, 0xf283bc2871caa954, 0xd28bfcaa83ede607, 0x47ab77d1f34baae1,
    0x80adf7b0c45baac7, 0x9e0787606c943ace, 0x31a3099337cd7f95, 0x4c7c7397842e96af, 0xd3017f529adb9c4d,
    0x3c0816fb09059817, 0x52f6646e3cb4e7b8, 0xede8ab1b9382e4ad, 0xf9a9803a70a8c24b, 0x069f07565a7e4a9a)

  const S14 := Words(
    0x94b8714a79b4f579, 0xdd97992da9cc5043, 0xa7969c8e19ee2e30, 0xe17cb08c2dcb80b2, 0x93b4c73a176a6e8b,
    0x930635ec94145a75, 0x62c1c8e04f0fe2f1, 0x6b8f7814668bd3b6, 0xfd3c7a8645daac15, 0x6664b42598dd1a9f,
    0xd02899cb42351935, 0x6e073a60688d2f43, 0xf7a3bf7901c8a1b4, 0xd28bf4a883d9f707, 0x69ac15f15bc3caa1,
    0xa10dff23d712efd6, 0xd25bf564ecb6bae4, 0xa2a205d32d1c77d5, 0x4cd0f337c02eb42d, 0xcd037f12b25f8c45,
    0x91009dea8a079812, 0x42f7644e5c9ce5fa, 0xebfeac5f99d4ec3d, 0xc1a9909371a9524e, 0x446967526ece2d32)

  const C14 := Columns(0xe79bbfa4f280c1fd, 0x41fdfa873e64c2ef, 0x72e6f26fca65c7da, 0x43b25d065a4f3dc3, 0x15167eae08e51fc2)
  const T14 := Columns(0xcf377f49e50183fb, 0x83fbf50e7cc985de, 0xe5cde4df94cb8fb4, 0x8764ba0cb49e7b86, 0x2a2cfd5c11ca3f84)
  const M14 := Words(
    0x0255faea0d986f65, 0x4acb86097939b294, 0x90c6e989d7ff9459, 0x808370298e62835f, 0x1147746024c2b23b,
    0xff66478ecb9b6bfb, 0x66a2793a4a7eae19, 0x36289359b0cc194a, 0xbe95ba01b5c3f15f, 0x85acfd9a8265caaa,
    0xbf8384ad9f0e3c15, 0x458e27fb1c5ab7eb, 0x36b0ec1eb31483f7, 0x865d5d0d11327d41, 0x592bf8ac08381fb4,
    0xad41268598f98f2b, 0x038c06905ebbe4ce, 0x45846c3b198429b1, 0xa2ac53f3675e321d, 0x1099639fa0aa06aa,
    0x5843f70164c525d6, 0x25d2fb3adacf3aaa, 0x46ba4cf2949bdf72, 0x7ceb946fc0e90746, 0x0284fcd4eb5eaecd)

  const S15 := Words(
    0x1251936a8b5eeba5, 0x4aca96297139b192, 0x8182edc9f77fa479, 0x8293faa3877ace1b, 0x59cd706154e322ab,
    0xef6ec5cf7b1b7ab9, 0xee37513a4f7d4e0c, 0x3700d6c3b2e813ea, 0xc4d7b805fc59d00e, 0x852cc5aa82014eaa,
    0x8db34ca93c0a3c01, 0xc5c336fa1c78cbeb, 0x6f924cbebb1c8143, 0x20dd590c86345d40, 0x1927dbfe08689c5e,
    0xe9414eae99fd861a, 0xa1a4155038e1f6c2, 0x55954c3799242d13, 0x0fec57f37f0fbb1c, 0x1215638fe6a8666e,
    0x1a6bf3c160d5e086, 0x1d936b379aaf3aae, 0x44be2462bf8d77fb, 0x24a8976ec4680654, 0x2714f4ee7154b4e5)

  const C15 := Columns(0x83a6a7633567cb81, 0xdd098f8e8072f819, 0xc83b1fe1d8226c38, 0x4ddddb374670fe1d, 0xf0c7f954497622d4)
  const T15 := Columns(0x074d4ec66acf9703, 0xba131f1d00e5f033, 0x90763fc3b044d871, 0x9bbbb66e8ce1fc3a, 0xe18ff2a892ec45a9)
  const M15 := Words(
    0x58857523c2cd3942, 0xe5dfcfde7c99aca5, 0x7c2b014903aaf5bc, 0x5746b83251a4cb17, 0x1847d77af77edb61,
    0xacdb4e78aab2717e, 0x05baebe27b4cfbc5, 0x3b3d5703accf7736, 0x5ca6564e91be17b8, 0x004183b05663ce7b,
    0xb2341d13e83544c4, 0x6cbbc8ef9ec5f25c, 0x8b99f4e9a212d368, 0x85f67eca170f7058, 0x5620a518c98542fc,
    0x83c2e25da89aef2c, 0x288a85ea5ba23863, 0x4eb96a656f606f58, 0xbaebcadb94980993, 0xc50d1c7a278ea62f,
    0xb1cc350a7efb2816, 0xcff6b1aaa65b4bfc, 0x6bfaa029dba70792, 0xdca9fb472b51cfa0, 0x390fce5c7e30a578)

  const S16 := Words(
    0xc0a57522c1efe859, 0xe69b77ec2c9da6a6, 0x742a4601a5f0e5dc, 0x17c698335125eb15, 0xbd1d5da6cb6e5fc4,
    0x96de5a792e31754c, 0x4138ebae6a7cfb4d, 0x3b7cd6b3ea8ebf75, 0xf03c1a06392e26bc, 0x01612232072f44fa,
    0x31342913c82745e4, 0x68ddc2ed8bc8d24c, 0xd99975f96a92d1cc, 0x25e266c9373f7458, 0x1aab65f4df45f0e4,
    0xc5f388588cdaa834, 0x98c80570cb3a38e0, 0x0bbd7e454c66c974, 0xb82928de1c884093, 0xed0519d874aeb66c,
    0x91c4350b275f2c14, 0x5bf7eaec860b83dc, 0x4afca4318f8727ca, 0x5c69ca452b9ac7a6, 0x773d4efcfe30e690)

  const C16 := Columns(0x3378bb1b8c7c5cd1, 0x0c41b1338018349b, 0xd78e3f3fe60d65db, 0x2658066768263ec4, 0x3cef4d44999abb26)
  const T16 := Columns(0x66f1763718f8b9a2, 0x1883626700306936, 0xaf1c7e7fcc1acbb7, 0x4cb00cced04c7d88, 0x79de9a893335764c)
  const M16 := Words(
    0xe4c95a0158453a49, 0xa6c2bdd5c2eca2a1, 0x34c6fccb464021d6, 0xad19360a6082cf31, 0x0fab23bb987d8de5,
    0x5841df882b9963d8, 0x26277f1c39c41c85, 0xaac031828c6cbfa0, 0x95f0c0959802916b, 0x2141a3399bfa6ddb,
    0xf5ff6510d9f66380, 0xe35ad3aeb6bd999e, 0xffc40ecf9f176586, 0xac69880470310aad, 0x68a2fbd7f812d6a0,
    0xb5dd86c517eda16f, 0x79ba75cb2b2755ab, 0xe41e272eb914abd2, 0x61dc0e194033a5a6, 0x31f2396ff3fea2d4,
    0xcd36feff3d692b33, 0x95af365fd8760b1a, 0xcdbbc12d010ad257, 0xe0f449c33f4ef62a, 0x1e4cbe2319b452eb)

  const S17 := Words(
    0x74cd1a0b5c45bb1d, 0x2fdbbfd5e26e6c80, 0x3664fd7ade3d2112, 0x4d596e0a2082fd39, 0x0da9866f1ad50d45,
    0xd081df0aafb1c0f8, 0x3317bf0929c61cce, 0x8ac112aa8f94d330, 0xcdf09c15b803936b, 0x0767832d8bbe71de,
    0xe97b6951d0f40780, 0xe37353aed69d93b7, 0xbf467d1c1715b186, 0x39348c0471d52bad, 0x6aa26979de1b4ebe,
    0x31d984e187fd0b3f, 0x787a7dda6b04518f, 0xf43c16480ad8a982, 0xe5d188994432a48d, 0x79d04865dbfcf654,
    0x85263fdf3c61fb76, 0xb5eb3e9de6322f32, 0xd3b3770d01bad296, 0x21c6091f1b07df3a, 0x0ec5be23d9a252e3)

  const C17 := Columns(0xf9c8176e989c8c2c, 0x322e103590039d44, 0x246cf3894dde38b0, 0x7d8aff9db6613e48, 0x17799a7d4d2e9692)
  const T17 := Columns(0xf3902edd31391859, 0x645c206b20073a88, 0x48d9e7129bbc7160, 0xfb15ff3b6cc27c90, 0x2ef334fa9a5d2d24)
  const M17 := Words(
    0x07e8a01d316c1707, 0x6e18282064f752ae, 0xa28293b3ec90975e, 0xfd527636233de9c9, 0xdbd8d7be9d3ca037,
    0x9f701e8ad47c6a97, 0x26d0ce657cf897d5, 0xd2f69a3deeed5cd4, 0x9598792d71b4cd04, 0x435113007faf6668,
    0x3d949f53c29d2399, 0xfebf691cd54cb910, 0xef4cac7c72675696, 0xca99255ca4d045f7, 0x172545215db3d80e,
    0x7cec695aa41d9ab9, 0x2986ce2a3a4651cc, 0x8a8f4b56f5bbed49, 0xfca37b0ca42b1e83, 0xae2b59ce6ccc84ca,
    0xbfd7c49d08bf3031, 0x7fe3b7adb337c043, 0xa1b457f25c5c1cac, 0xa94e4a85f87defd5, 0x13eb3b87944b49f8)

  const S18 := Words(
    0x076a338eb96c92d7, 0x33484c2467da3a2f, 0xa00a123b70909768, 0xf9725637037dfec9, 0xb3c8df9ed9afe09f,
    0x4f560e9256792297, 0x23d8af656de816d5, 0x90b7983de0e67ebc, 0x09b875a7f1e4c593, 0x63d1d365572ff328,
    0x3cd41b33e0be651f, 0xfe2e681c51dcb871, 0xfa68ec5d2b44ce9e, 0xe209bf0e26dc6666, 0xd50e252d48f3400e,
    0xfee5680e61a436b8, 0x5da6fe223a46434e, 0x88874b94bd7f6d01, 0xac675b1c243a04b2, 0xaf29dfee768ec58e,
    0x3fc384cf44f72c9d, 0x77a9bfa813162312, 0xb31566f0585e1c84, 0x055a8e9df0c9dfd4, 0x53cb08a7274b89ba)

  const C18 := Columns(0xb5cecaee2af8cf7a, 0xc4b1cad772bef4d7, 0xf1474b3f5e1356cf, 0xbbfe491f00b6865a, 0xf9f5fe9f97b61f8d)
  const T18 := Columns(0x6b9d95dc55f19ef5, 0x896395aee57de9af, 0xe28e967ebc26ad9f, 0x77fc923e016d0cb5, 0xf3ebfd3f2f6c3f1b)
  const M18 := Words(
    0x77fc58bfcba764f5, 0x674307498f3f5fb3, 0xb9b7e2492da5a2c4, 0xa38aa8adacd5d97d, 0x35191c83244560ea,
    0x77202971dfbdee03, 0xfa60268eb87b3b20, 0x6213801493ac99ea, 0x0435615cd4565593, 0xc00b07c32571bc9c,
    0xc8102169e208b194, 0xfeb03524cd61b788, 0x1caf461f65c14a12, 0x4a032d23c9dd217f, 0xbff8d8f36afd3d57,
    0xec6747c1831d581a, 0x4b2d4b53fc065a32, 0xb8d2331c0b6a52a5, 0x09bee7564ab19de5, 0x0007f6389d81b6b6,
    0x84d1d2b480d0dbc2, 0x23858a61d3c04dd6, 0xda2c5082b6fcf70e, 0xdf81351ce6067e26, 0x83a78ce2172107dc)

  const S19 := Words(
    0xef48b8bfeb2744bb, 0x654b0fed0f6f068a, 0xada6f64b2da58246, 0xe16ee8916777dd68, 0x351a1bc3205d7be8,
    0x7733a961dc396ec9, 0xfe4447c6fc297f31, 0xa2198697b28d31e6, 0x3315496c0eda1790, 0x484b014d0533adbc,
    0xc81f6372c288f986, 0xbcb01c04457d96e5, 0xa95796cf47e15612, 0x0a030c2b49dda1ff, 0x8958ccf7679c3b5f,
    0x5cb577cd8075589f, 0x4a018f11bc97d772, 0xb8d323349e6a70b7, 0xe5dee69748add5ed, 0x030ffe2ae183b496,
    0x5cf98236a4ec69ca, 0x2604af7d93c245f6, 0xda0ad860a7ddf6d6, 0xdbd1670866d6a624, 0xa0a384a3442103c8)

  const C19 := Columns(0x50288757d10fe2a1, 0x4bba7443996e7dda, 0xc4311d47e17e63d3, 0xe6772c490e0b18ce, 0x57a5acf0e7505a55)
  const T19 := Columns(0xa0510eafa21fc542, 0x9774e88732dcfbb4, 0x88623a8fc2fcc7a7, 0xccee58921c16319d, 0xaf4b59e1cea0b4aa)
  const M19 := Words(
    0x2f99fcc83eabe55a, 0xa5a37260efa1eefd, 0xc8d2a9701dd0f614, 0x462cee605291d494, 0x69917a0d779139a1,
    0x748a90a118a14ac3, 0x3aba92770300e6d2, 0x46713828b822c338, 0x9e4e9249665935ec, 0x2babde962454b752,
    0x7a03646a39384719, 0x536a918dfd5f6849, 0x1acc06ed0cc2f291, 0x29dccc4d97691a45, 0x1905c58320ae70a3,
    0x2c624d332399e1c9, 0x9b5cf28b7e2ed160, 0xea87715a3acf8d93, 0x87f28d891e781fc3, 0x5db0ab23ae490871,
    0x4abcb6a6aa377380, 0x74ac3786e5108260, 0xc47369e7bf7708e5, 0xf3f2fd38c86774ab, 0xf9384a9600c583c3)

  const S20 := Words(
    0xe7c975d8aefbf550, 0xa38f3460ada0ee7d, 0xe143b97d38d0df35, 0x40246aa05abb10ce, 0xe9b3782db6913304,
    0x30cbb8a9a0834beb, 0xa2b410364559d216, 0x67d074beb826412a, 0xca4e92687ef87d6d, 0x219bdcc027541342,
    0x7287620a39b8d589, 0x727a598d6e76600d, 0x0acd076f2c449233, 0x4bdeec258e791d5d, 0x186d5406e4e958e3,
    0x4ce14c632358ed5a, 0x9e2c7e0a7a1ec320, 0xb28753789ace8da3, 0xa7b0c9991fe8fe4b, 0xceac19abf26f1851,
    0xcaeffec7b0507b05, 0x472ca39ea510f66a, 0xcc7b6b61bff78ba5, 0xf1764918625504ab, 0xcd384b9645c503a3)

  const C20 := Columns(0x238b1ddfa4c8fd6d, 0xaa41a04f5981692c, 0xf2a2f2b5898b0a2a, 0x9772946cd7878a1e, 0xd3d1a2d6c2866357)
  const T20 := Columns(0x47163bbf4991fada, 0x5483409eb302d259, 0xe545e56b13161455, 0x2ee528d9af0f143d, 0xa7a345ad850cc6af)
  const M20 := Words(
    0x609b9790df7f445e, 0x73b2e647ae882f28, 0x577914734c7fced6, 0xd0226de659de562f, 0x391176f4dcd9c757,
    0x8563cdc4b1525ddb, 0x313b9426386f1ff7, 0xaeac021241e3243f, 0x05430b1c50d7d9b8, 0x891bfc7ee92f3ed6,
    0xca8399a834fc0e8a, 0xdd3f0a13aa0f0ef8, 0x7b05fda3b03dbeb6, 0xc8b6786c7968951e, 0x723f0753282d36f4,
    0xf1443a1e01cebebf, 0x107fae5b7995ae1d, 0xd284e766a224d6d2, 0xedf7362078591b11, 0x2ea477fe006ed2c8,
    0x1979cc7af397a889, 0xf44fa792b8393fd8, 0x7f9413e404fdeabd, 0xb8b8a997675c56a5, 0x07896ca84b387d4a)

  const S21 := Words(
    0xe4d287a01f080409, 0xf3b08fc3bf083f01, 0x7e680663c87e4f86, 0x90a8ece65af85627, 0x2a3116b3fc59ec77,
    0x0be7cfd4f0d27dd3, 0x30789d2a287bc677, 0x26b4f670e8cb0279, 0x01230a9c408798b1, 0xb903ec5ce1023cf2,
    0xe8836c0824ccbe8c, 0x5d8d0a5fe34f0ff0, 0x490cfab0b0389c56, 0x4036e0c46db89d14, 0x67030540a22e3684,
    0x33c47b3a83eeee7d, 0x3d0cbe5b21cca71c, 0xd084a6b8a202161a, 0x3cb73e2079d93726, 0x2e9ff3bf787fd2c8,
    0x12e9dc1ef75368ac, 0x74670f81db392bd8, 0x789557cc0cddc3f7, 0xa0c829c5d7dbd624, 0xe38f4f2843106a1a)

  const C21 := Columns(0x269b8358bfab4187, 0xd72ea96c8ec97a42, 0xb9c1fbd73e520444, 0x4dc2115bd9c5b280, 0x39214338841a5ed3)
  const T21 := Columns(0x4d3706b17f56830e, 0xae5d52d91d92f485, 0x7383f7ae7ca40889, 0x9b8422b7b38b6500, 0x724286710834bda6)
  const M21 := Words(
    0x73ae96418680ae5f, 0x48f796560e9dceb7, 0xd418a02d338b5c6b, 0x70c9f7f1d89ee688, 0x9630b960d6e538de,
    0x06c9eefc55b2b914, 0xbb647910d7cb9f6f, 0xfffbef4dea20a6d3, 0x7dc24d029955bc58, 0xa687fb82e633fb96,
    0x4d51f66af80eec1f, 0x879f6af562474eda, 0xc4b7bc49ed176b3a, 0x6ae455deece3462e, 0x37fdbb6f0bea1657,
    0xcad656efc956200a, 0x95ad7859c9bde356, 0x55faa481011bf822, 0x16b1cfa004ac4e17, 0xc66b4b5463e1bd6f,
    0x0cb0a36e3d4f1431, 0xa9e5503b9d3b7090, 0x5e838533fb095502, 0xcc88574970d5b634, 0x85fdeddc60d98b58)

  const S22 := Words(
    0x67a6b668b7823e97, 0x6836c186c6896c37, 0x5228a82d35ea443d, 0x1147f1f0d89e6089, 0x9e61b976def8787e,
    0x425268b17d929984, 0xbb647912c69e8767, 0x7dfe5dcd8c02e555, 0x7d8a497e88d5bc58, 0x1fa3ea82647afdfd,
    0x0d716262751ecd3f, 0xaddf2b6362a74ade, 0xd1ae1668ee1f7b6b, 0x22e411de1ce7ae26, 0xb573b3fa09ab1497,
    0x8a84d26fc954382a, 0x97ac3379cd19e543, 0x95b0a4d5625a494a, 0x1e25db0b8cba4e17, 0xd342634463487e3b,
    0x5ab2266e5f4f1133, 0x29ed02739defd2a4, 0x5ff62da7fb015c4a, 0xc488556b6dd3a215, 0x24b8bdcde0e9ebd8)

  const C22 := Columns(0xf8b348ba29154335, 0xc0cca2fd32469669, 0x343e6afaceaccf03, 0x94842730adc59ef5, 0xc34b3e87308804f7)
  const T22 := Columns(0xf1669174522a866b, 0x819945fa648d2cd3, 0x687cd5f59d599e06, 0x29084e615b8b3deb, 0x86967d0e611009ef)
  const M22 := Words(
    0x2574cd15e38716b3, 0x25a542babe45d72d, 0x968749c357d7a43e, 0x9fe460d11f7591b9, 0x82e247c1bcd19056,
    0x47722a665a3efe60, 0xcc69b95e5637a415, 0x7d18c8f908df28da, 0xa70e00ec75c6cf2a, 0x16c6582772599ef9,
    0xf1f2b992e58b6209, 0x0eac547973d3b5e5, 0x5566b6d19520980c, 0xa0d5009ca766a5b6, 0x744c2d28e45c6181,
    0x9108bb0707dc1879, 0x997b1a0008013cc2, 0x42d8b35bae5fb4f4, 0x242485cbf1643e3a, 0xf97620429fc26f64,
    0xeefb112c5709fbef, 0x5a67912f4513b4bd, 0x220604e84882df7b, 0xa2201d90ad52253a, 0xe48a7cf0a68c3e5e)

  const S23 := Words(
    0xb776c454221536a0, 0x2cc562aab665c6ac, 0x96854ec3f757a478, 0xbaf0e8c55c739718, 0x8263456ba091515a,
    0x76626ac752f6f6aa, 0x4e6fb95a23376335, 0x6dd890fa0ac6380b, 0xe63e22ac7de0af2a, 0x9ecfc93f76589eec,
    0xa0b01b1261ab6a01, 0xae3d547551959057, 0x016e9bf1d538d80d, 0x2167900ea6e5a7be, 0x7a406941f60cf465,
    0xd3881a5ca182984d, 0xbd5f1e80592136c8, 0x9b8a935ba0ddf5b0, 0x242c1ecef1782e23, 0xf105204297c34be6,
    0xcefb15ec5f89b0ad, 0xda47883fe04394bd, 0x668c64884a0ec53f, 0xa8511c9cfc53e49b, 0xf48efcf3a69e3a4e)

  const C23 := Columns(0x7cd7ba31ef4382eb, 0xab8f193a7da597bb, 0x0735b21bc27a74f1, 0xf1d458358a5d5534, 0x636739a411984a7b)
  const T23 := Columns(0xf9af7463de8705d6, 0x571e3274fb4b2f77, 0x0e6b643784f4e9e2, 0xe3a8b06b14baaa69, 0xc6ce7348233094f6)
  const M23 := Words(
    0x830fcf84c8c653ac, 0x0083c3cd3675c488, 0x3f2efa4a499505e1, 0xf3a20659c49cbafb, 0x74297c911aab3f3d,
    0x6bd39771f7b0b299, 0x5692282ce0e96b4e, 0xa64886145bc0786c, 0xcbb839fc7810c652, 0xa5d579bb24623f1d,
    0xbcf37959bba55b4a, 0x7fce6ad8f6417649, 0xba8f5e8f73c138a2, 0x7e0c14c3191b04f9, 0x78f2d56b5687ea08,
    0xefa2580dc450c349, 0x82593a6421b6117b, 0x0629cce88bed7b72, 0x9d0564e1643169d6, 0x9c69aaddcf1d1904,
    0xb7a8b9e4a792266a, 0x9693e2f1ffce5527, 0x6b5243b91da28bd1, 0xa3fa83cfe2231896, 0xa3ed58e62fd3fed2)

  const S24 := Words(
    0x3c23f7860146d2c5, 0xc003c7dcb27d7e92, 0x3b2782ca53b600e5, 0x70a4855d04d8fa7b, 0x74a97cd82c9abb3d,
    0xcb9b1161ecb0a2b9, 0x1f2211c4c0f9ed5c, 0x820dc6175fa24161, 0x81babfbcab8046d2, 0xb1d551b7242b765b,
    0x3cf26d5eba2553e8, 0x3bce6a98fe5b7210, 0xba7d9fa73545d2a2, 0xfa0d3cd3b03b15bb, 0x3bfed7eb12c7ce09,
    0xeb829c854e19a949, 0x1b5d1a6545a611ff, 0x064146f400e16b72, 0xfe8734e16471ab9f, 0x9c3088bdeebb0936,
    0xdee8b8eca7b2acba, 0x163b62b71dcf4521, 0x6b571b9910726d91, 0xb7fa22cf622318be, 0xa3fe1af7779fafd7)

  lemma Evaluate0()
    ensures ColumnWords(S0) == C0 && TurnedColumns(C0) == T0
    ensures RhoPiWords(ThetaWords(S0, C0, T0)) == M0
    ensures IotaWords(ChiWords(M0), 0x0000000000000001) == S1
  {
  }

  lemma Evaluate1()
    ensures ColumnWords(S1) == C1 && TurnedColumns(C1) == T1
    ensures RhoPiWords(ThetaWords(S1, C1, T1)) == M1
    ensures IotaWords(ChiWords(M1), 0x0000000000008082) == S2
  {
  }

  lemma Evaluate2()
    ensures ColumnWords(S2) == C2 && TurnedColumns(C2) == T2
    ensures RhoPiWords(ThetaWords(S2, C2, T2)) == M2
    ensures IotaWords(ChiWords(M2), 0x800000000000808a) == S3
  {
  }

  lemma Evaluate3()
    ensures ColumnWords(S3) == C3 && TurnedColumns(C3) == T3
    ensures RhoPiWords(ThetaWords(S3, C3, T3)) == M3
    ensures IotaWords(ChiWords(M3), 0x8000000080008000) == S4
  {
  }

  lemma Evaluate4()
    ensures ColumnWords(S4) == C4 && TurnedColumns(C4) == T4
    ensures RhoPiWords(ThetaWords(S4, C4, T4)) == M4
    ensures IotaWords(ChiWords(M4), 0x000000000000808b) == S5
  {
  }

  lemma Evaluate5()
    ensures ColumnWords(S5) == C5 && TurnedColumns(C5) == T5
    ensures RhoPiWords(ThetaWords(S5, C5, T5)) == M5
    ensures IotaWords(ChiWords(M5), 0x0000000080000001) == S6
  {
  }

  lemma Evaluate6()
    ensures ColumnWords(S6) == C6 && TurnedColumns(C6) == T6
    ensures RhoPiWords(ThetaWords(S6, C6, T6)) == M6
    ensures IotaWords(ChiWords(M6), 0x8000000080008081) == S7
  {
  }

  lemma Evaluate7()
    ensures ColumnWords(S7) == C7 && TurnedColumns(C7) == T7
    ensures RhoPiWords(ThetaWords(S7, C7, T7)) == M7
    ensures IotaWords(ChiWords(M7), 0x8000000000008009) == S8
  {
  }

  lemma Evaluate8()
    ensures ColumnWords(S8) == C8 && TurnedColumns(C8) == T8
    ensures RhoPiWords(ThetaWords(S8, C8, T8)) == M8
    ensures IotaWords(ChiWords(M8), 0x000000000000008a) == S9
  {
  }

  lemma Evaluate9()
    ensures ColumnWords(S9) == C9 && TurnedColumns(C9) == T9
    ensures RhoPiWords(ThetaWords(S9, C9, T9)) == M9
    ensures IotaWords(ChiWords(M9), 0x0000000000000088) == S10
  {
  }

  lemma Evaluate10()
    ensures ColumnWords(S10) == C10 && TurnedColumns(C10) == T10
    ensures RhoPiWords(ThetaWords(S10, C10, T10)) == M10
    ensures IotaWords(ChiWords(M10), 0x0000000080008009) == S11
  {
  }

  lemma Evaluate11()
    ensures ColumnWords(S11) == C11 && TurnedColumns(C11) == T11
    ensures RhoPiWords(ThetaWords(S11, C11, T11)) == M11
    ensures IotaWords(ChiWords(M11), 0x000000008000000a) == S12
  {
  }

  lemma Evaluate12()
    ensures ColumnWords(S12) == C12 && TurnedColumns(C12) == T12
    ensures RhoPiWords(ThetaWords(S12, C12, T12)) == M12
    ensures IotaWords(ChiWords(M12), 0x000000008000808b) == S13
  {
  }

  lemma Evaluate13()
    ensures ColumnWords(S13) == C13 && TurnedColumns(C13) == T13
    ensures RhoPiWords(ThetaWords(S13, C13, T13)) == M13
    ensures IotaWords(ChiWords(M13), 0x800000000000008b) == S14
  {
  }

  lemma Evaluate14()
    ensures ColumnWords(S14) == C14 && TurnedColumns(C14) == T14
    ensures RhoPiWords(ThetaWords(S14, C14, T14)) == M14
    ensures IotaWords(ChiWords(M14), 0x8000000000008089) == S15
  {
  }

  lemma Evaluate15()
    ensures ColumnWords(S15) == C15 && TurnedColumns(C15) == T15
    ensures RhoPiWords(ThetaWords(S15, C15, T15)) == M15
    ensures IotaWords(ChiWords(M15), 0x8000000000008003) == S16
  {
  }

  lemma Evaluate16()
    ensures ColumnWords(S16) == C16 && TurnedColumns(C16) == T16
    ensures RhoPiWords(ThetaWords(S16, C16, T16)) == M16
    ensures IotaWords(ChiWords(M16), 0x8000000000008002) == S17
  {
  }

  lemma Evaluate17()
    ensures ColumnWords(S17) == C17 && TurnedColumns(C17) == T17
    ensures RhoPiWords(ThetaWords(S17, C17, T17)) == M17
    ensures IotaWords(ChiWords(M17), 0x8000000000000080) == S18
  {
  }

  lemma Evaluate18()
    ensures ColumnWords(S18) == C18 && TurnedColumns(C18) == T18
    ensures RhoPiWords(ThetaWords(S18, C18, T18)) == M18
    ensures IotaWords(ChiWords(M18), 0x000000000000800a) == S19
  {
  }

  lemma Evaluate19()
    ensures ColumnWords(S19) == C19 && TurnedColumns(C19) == T19
    ensures RhoPiWords(ThetaWords(S19, C19, T19)) == M19
    ensures IotaWords(ChiWords(M19), 0x800000008000000a) == S20
  {
  }

  lemma Evaluate20()
    ensures ColumnWords(S20) == C20 && TurnedColumns(C20) == T20
    ensures RhoPiWords(ThetaWords(S20, C20, T20)) == M20
    ensures IotaWords(ChiWords(M20), 0x8000000080008081) == S21
  {
  }

  lemma Evaluate21()
    ensures ColumnWords(S21) == C21 && TurnedColumns(C21) == T21
    ensures RhoPiWords(ThetaWords(S21, C21, T21)) == M21
    ensures IotaWords(ChiWords(M21), 0x8000000000008080) == S22
  {
  }

  lemma Evaluate22()
    ensures ColumnWords(S22) == C22 && TurnedColumns(C22) == T22
    ensures RhoPiWords(ThetaWords(S22, C22, T22)) == M22
    ensures IotaWords(ChiWords(M22), 0x0000000080000001) == S23
  {
  }

  lemma Evaluate23()
    ensures ColumnWords(S23) == C23 && TurnedColumns(C23) == T23
    ensures RhoPiWords(ThetaWords(S23, C23, T23)) == M23
    ensures IotaWords(ChiWords(M23), 0x8000000080008008) == S24
  {
  }

  lemma Step(s: State, ir: nat, w: Words, c: Columns, t: Columns, m: Words, rc: Word, next: Words,
             b0: bool, b1: bool, b2: bool, b3: bool, b4: bool, b5: bool, b6: bool)
    requires ir < 24 && Holds(Rounds(s, ir), w) && ColumnWords(w) == c && TurnedColumns(c) == t
    requires RhoPiWords(ThetaWords(w, c, t)) == m && IotaWords(ChiWords(m), rc) == next
    requires ROUND_CONSTANTS[ir] == Placed(b0, b1, b2, b3, b4, b5, b6)
    requires rc == PlacedWord(b0, b1, b2, b3, b4, b5, b6)
    ensures Holds(Rounds(s, ir + 1), next)
  {
    hide Holds, ColumnWords, TurnedColumns, ThetaWords, RhoPiWords, ChiWords, IotaWords, Placed, PlacedWord, ROUND_CONSTANTS,
      Round, RoundConstantIs;
    RoundConstantWord(ir, b0, b1, b2, b3, b4, b5, b6);
    RoundHolds(Rounds(s, ir), ir, w, rc);
  }

  lemma Constants0()
    ensures |ROUND_CONSTANTS| == 24
    ensures ROUND_CONSTANTS[0] == 0x0000000000000001
    ensures ROUND_CONSTANTS[1] == 0x0000000000008082
    ensures ROUND_CONSTANTS[2] == 0x800000000000808A
    ensures ROUND_CONSTANTS[3] == 0x8000000080008000
    ensures ROUND_CONSTANTS[4] == 0x000000000000808B
    ensures ROUND_CONSTANTS[5] == 0x0000000080000001
    ensures ROUND_CONSTANTS[6] == 0x8000000080008081
    ensures ROUND_CONSTANTS[7] == 0x8000000000008009
  {
  }

  lemma Places0()
    ensures Placed(I, O, O, O, O, O, O) == 0x0000000000000001
    ensures Placed(O, I, O, I, I, O, O) == 0x0000000000008082
    ensures Placed(O, I, I, I, I, O, I) == 0x800000000000808A
    ensures Placed(O, O, O, O, I, I, I) == 0x8000000080008000
    ensures Placed(I, I, I, I, I, O, O) == 0x000000000000808B
    ensures Placed(I, O, O, O, O, I, O) == 0x0000000080000001
    ensures Placed(I, O, O, I, I, I, I) == 0x8000000080008081
    ensures Placed(I, O, I, O, I, O, I) == 0x8000000000008009
  {
  }

  lemma ConstantWords0()
    ensures PlacedWord(I, O, O, O, O, O, O) == 0x0000000000000001
    ensures PlacedWord(O, I, O, I, I, O, O) == 0x0000000000008082
    ensures PlacedWord(O, I, I, I, I, O, I) == 0x800000000000808a
    ensures PlacedWord(O, O, O, O, I, I, I) == 0x8000000080008000
    ensures PlacedWord(I, I, I, I, I, O, O) == 0x000000000000808b
    ensures PlacedWord(I, O, O, O, O, I, O) == 0x0000000080000001
    ensures PlacedWord(I, O, O, I, I, I, I) == 0x8000000080008081
    ensures PlacedWord(I, O, I, O, I, O, I) == 0x8000000000008009
  {
  }

  lemma Rounds0(s: State)
    requires Holds(Rounds(s, 0), S0)
    ensures Holds(Rounds(s, 8), S8)
  {
    hide Holds, Rounds, ColumnWords, TurnedColumns, ThetaWords, RhoPiWords, ChiWords, IotaWords, Placed, PlacedWord,
      ROUND_CONSTANTS;
    Constants0();
    Places0();
    ConstantWords0();
    Evaluate0();
    Step(s, 0, S0, C0, T0, M0, 0x0000000000000001, S1, I, O, O, O, O, O, O);
    Evaluate1();
    Step(s, 1, S1, C1, T1, M1, 0x0000000000008082, S2, O, I, O, I, I, O, O);
    Evaluate2();
    Step(s, 2, S2, C2, T2, M2, 0x800000000000808a, S3, O, I, I, I, I, O, I);
    Evaluate3();
    Step(s, 3, S3, C3, T3, M3, 0x8000000080008000, S4, O, O, O, O, I, I, I);
    Evaluate4();
    Step(s, 4, S4, C4, T4, M4, 0x000000000000808b, S5, I, I, I, I, I, O, O);
    Evaluate5();
    Step(s, 5, S5, C5, T5, M5, 0x0000000080000001, S6, I, O, O, O, O, I, O);
    Evaluate6();
    Step(s, 6, S6, C6, T6, M6, 0x8000000080008081, S7, I, O, O, I, I, I, I);
    Evaluate7();
    Step(s, 7, S7, C7, T7, M7, 0x8000000000008009, S8, I, O, I, O, I, O, I);
  }

  lemma Constants8()
    ensures |ROUND_CONSTANTS| == 24
    ensures ROUND_CONSTANTS[8] == 0x000000000000008A
    ensures ROUND_CONSTANTS[9] == 0x0000000000000088
    ensures ROUND_CONSTANTS[10] == 0x0000000080008009
    ensures ROUND_CONSTANTS[11] == 0x000000008000000A
    ensures ROUND_CONSTANTS[12] == 0x000000008000808B
    ensures ROUND_CONSTANTS[13] == 0x800000000000008B
    ensures ROUND_CONSTANTS[14] == 0x8000000000008089
    ensures ROUND_CONSTANTS[15] == 0x8000000000008003
  {
  }

  lemma Places8()
    ensures Placed(O, I, I, I, O, O, O) == 0x000000000000008A
    ensures Placed(O, O, I, I, O, O, O) == 0x0000000000000088
    ensures Placed(I, O, I, O, I, I, O) == 0x0000000080008009
    ensures Placed(O, I, I, O, O, I, O) == 0x000000008000000A
    ensures Placed(I, I, I, I, I, I, O) == 0x000000008000808B
    ensures Placed(I, I, I, I, O, O, I) == 0x800000000000008B
    ensures Placed(I, O, I, I, I, O, I) == 0x8000000000008089
    ensures Placed(I, I, O, O, I, O, I) == 0x8000000000008003
  {
  }

  lemma ConstantWords8()
    ensures PlacedWord(O, I, I, I, O, O, O) == 0x000000000000008a
    ensures PlacedWord(O, O, I, I, O, O, O) == 0x0000000000000088
    ensures PlacedWord(I, O, I, O, I, I, O) == 0x0000000080008009
    ensures PlacedWord(O, I, I, O, O, I, O) == 0x000000008000000a
    ensures PlacedWord(I, I, I, I, I, I, O) == 0x000000008000808b
    ensures PlacedWord(I, I, I, I, O, O, I) == 0x800000000000008b
    ensures PlacedWord(I, O, I, I, I, O, I) == 0x8000000000008089
    ensures PlacedWord(I, I, O, O, I, O, I) == 0x8000000000008003
  {
  }

  lemma Rounds8(s: State)
    requires Holds(Rounds(s, 8), S8)
    ensures Holds(Rounds(s, 16), S16)
  {
    hide Holds, Rounds, ColumnWords, TurnedColumns, ThetaWords, RhoPiWords, ChiWords, IotaWords, Placed, PlacedWord,
      ROUND_CONSTANTS;
    Constants8();
    Places8();
    ConstantWords8();
    Evaluate8();
    Step(s, 8, S8, C8, T8, M8, 0x000000000000008a, S9, O, I, I, I, O, O, O);
    Evaluate9();
    Step(s, 9, S9, C9, T9, M9, 0x0000000000000088, S10, O, O, I, I, O, O, O);
    Evaluate10();
    Step(s, 10, S10, C10, T10, M10, 0x0000000080008009, S11, I, O, I, O, I, I, O);
    Evaluate11();
    Step(s, 11, S11, C11, T11, M11, 0x000000008000000a, S12, O, I, I, O, O, I, O);
    Evaluate12();
    Step(s, 12, S12, C12, T12, M12, 0x000000008000808b, S13, I, I, I, I, I, I, O);
    Evaluate13();
    Step(s, 13, S13, C13, T13, M13, 0x800000000000008b, S14, I, I, I, I, O, O, I);
    Evaluate14();
    Step(s, 14, S14, C14, T14, M14, 0x8000000000008089, S15, I, O, I, I, I, O, I);
    Evaluate15();
    Step(s, 15, S15, C15, T15, M15, 0x8000000000008003, S16, I, I, O, O, I, O, I);
  }

  lemma Constants16()
    ensures |ROUND_CONSTANTS| == 24
    ensures ROUND_CONSTANTS[16] == 0x8000000000008002
    ensures ROUND_CONSTANTS[17] == 0x8000000000000080
    ensures ROUND_CONSTANTS[18] == 0x000000000000800A
    ensures ROUND_CONSTANTS[19] == 0x800000008000000A
    ensures ROUND_CONSTANTS[20] == 0x8000000080008081
    ensures ROUND_CONSTANTS[21] == 0x8000000000008080
    ensures ROUND_CONSTANTS[22] == 0x0000000080000001
    ensures ROUND_CONSTANTS[23] == 0x8000000080008008
  {
  }

  lemma Places16()
    ensures Placed(O, I, O, O, I, O, I) == 0x8000000000008002
    ensures Placed(O, O, O, I, O, O, I) == 0x8000000000000080
    ensures Placed(O, I, I, O, I, O, O) == 0x000000000000800A
    ensures Placed(O, I, I, O, O, I, I) == 0x800000008000000A
    ensures Placed(I, O, O, I, I, I, I) == 0x8000000080008081
    ensures Placed(O, O, O, I, I, O, I) == 0x8000000000008080
    ensures Placed(I, O, O, O, O, I, O) == 0x0000000080000001
    ensures Placed(O, O, I, O, I, I, I) == 0x8000000080008008
  {
  }

  lemma ConstantWords16()
    ensures PlacedWord(O, I, O, O, I, O, I) == 0x8000000000008002
    ensures PlacedWord(O, O, O, I, O, O, I) == 0x8000000000000080
    ensures PlacedWord(O, I, I, O, I, O, O) == 0x000000000000800a
    ensures PlacedWord(O, I, I, O, O, I, I) == 0x800000008000000a
    ensures PlacedWord(I, O, O, I, I, I, I) == 0x8000000080008081
    ensures PlacedWord(O, O, O, I, I, O, I) == 0x8000000000008080
    ensures PlacedWord(I, O, O, O, O, I, O) == 0x0000000080000001
    ensures PlacedWord(O, O, I, O, I, I, I) == 0x8000000080008008
  {
  }

  lemma Rounds16(s: State)
    requires Holds(Rounds(s, 16), S16)
    ensures Holds(Rounds(s, 24), S24)
  {
    hide Holds, Rounds, ColumnWords, TurnedColumns, ThetaWords, RhoPiWords, ChiWords, IotaWords, Placed, PlacedWord,
      ROUND_CONSTANTS;
    Constants16();
    Places16();
    ConstantWords16();
    Evaluate16();
    Step(s, 16, S16, C16, T16, M16, 0x8000000000008002, S17, O, I, O, O, I, O, I);
    Evaluate17();
    Step(s, 17, S17, C17, T17, M17, 0x8000000000000080, S18, O, O, O, I, O, O, I);
    Evaluate18();
    Step(s, 18, S18, C18, T18, M18, 0x000000000000800a, S19, O, I, I, O, I, O, O);
    Evaluate19();
    Step(s, 19, S19, C19, T19, M19, 0x800000008000000a, S20, O, I, I, O, O, I, I);
    Evaluate20();
    Step(s, 20, S20, C20, T20, M20, 0x8000000080008081, S21, I, O, O, I, I, I, I);
    Evaluate21();
    Step(s, 21, S21, C21, T21, M21, 0x8000000000008080, S22, O, O, O, I, I, O, I);
    Evaluate22();
    Step(s, 22, S22, C22, T22, M22, 0x0000000080000001, S23, I, O, O, O, O, I, O);
    Evaluate23();
    Step(s, 23, S23, C23, T23, M23, 0x8000000080008008, S24, O, O, I, O, I, I, I);
  }

  lemma AllRounds(s: State)
    requires Holds(s, S0)
    ensures Holds(KeccakF(s), S24)
  {
    hide Holds, Rounds;
    NoRounds(s);
    Rounds0(s);
    Rounds8(s);
    Rounds16(s);
  }

  lemma NoRounds(s: State)
    ensures Rounds(s, 0) == s
  {
  }

  // ----- the padded empty message

  lemma FirstBlock(k: nat)
    requires k < 1600
    ensures |Pad(0)| == RATE && XorBlock(Zero(), Pad(0))[k] == (k == 0 || k == 1087)
  {
  }

  lemma BlankLane(s: State, x: int, y: int)
    requires 0 <= x < 5 && 0 <= y < 5 && !(x == 0 && y == 0) && !(x == 1 && y == 3)
    requires s == XorBlock(Zero(), Pad(0))
    ensures LaneIs(s, x, y, 0)
  {
    forall z: nat | z < 64
      ensures At(s, x, y, z) == WordBit(0, z)
    {
      FirstBlock(64 * (5 * y + x) + z);
      BitOfZero(z);
    }
  }

  lemma FirstLane(s: State)
    requires s == XorBlock(Zero(), Pad(0))
    ensures LaneIs(s, 0, 0, 1)
  {
    forall z: nat | z < 64
      ensures At(s, 0, 0, z) == WordBit(1, z)
    {
      FirstBlock(z);
      BitOfOne(z);
    }
  }

  lemma LastLane(s: State)
    requires s == XorBlock(Zero(), Pad(0))
    ensures LaneIs(s, 1, 3, 0x8000_0000_0000_0000)
  {
    hide Turn, WordBit, XorBlock, Pad;
    SingleBits();
    forall z: nat | z < 64
      ensures At(s, 1, 3, z) == WordBit(0x8000_0000_0000_0000, z)
    {
      FirstBlock(1024 + z);
      BitAt(0x8000_0000_0000_0000, 63, z);
    }
  }

  lemma FirstState(s: State)
    requires s == XorBlock(Zero(), Pad(0))
    ensures Holds(s, S0)
  {
    hide LaneIs, XorBlock, Pad;
    FirstLane(s);
    LastLane(s);
    BlankLane(s, 1, 0);
    BlankLane(s, 2, 0);
    BlankLane(s, 3, 0);
    BlankLane(s, 4, 0);
    BlankLane(s, 0, 1);
    BlankLane(s, 1, 1);
    BlankLane(s, 2, 1);
    BlankLane(s, 3, 1);
    BlankLane(s, 4, 1);
    BlankLane(s, 0, 2);
    BlankLane(s, 1, 2);
    BlankLane(s, 2, 2);
    BlankLane(s, 3, 2);
    BlankLane(s, 4, 2);
    BlankLane(s, 0, 3);
    BlankLane(s, 2, 3);
    BlankLane(s, 3, 3);
    BlankLane(s, 4, 3);
    BlankLane(s, 0, 4);
    BlankLane(s, 1, 4);
    BlankLane(s, 2, 4);
    BlankLane(s, 3, 4);
    BlankLane(s, 4, 4);
  }

  // ----- the digest

  const DIGEST0: seq<Byte> := [0xc5, 0xd2, 0x46, 0x01, 0x86, 0xf7, 0x23, 0x3c]
  const DIGEST1: seq<Byte> := [0x92, 0x7e, 0x7d, 0xb2, 0xdc, 0xc7, 0x03, 0xc0]
  const DIGEST2: seq<Byte> := [0xe5, 0x00, 0xb6, 0x53, 0xca, 0x82, 0x27, 0x3b]
  const DIGEST3: seq<Byte> := [0x7b, 0xfa, 0xd8, 0x04, 0x5d, 0x85, 0xa4, 0x70]
  const EMPTY_DIGEST := DIGEST0 + DIGEST1 + DIGEST2 + DIGEST3

  lemma Bytes0()
    ensures Drop(0x3c23f7860146d2c5) == 0x3c23f7860146d2 && Drop(0x3c23f7860146d2) == 0x3c23f7860146
    ensures Drop(0x3c23f7860146) == 0x3c23f78601 && Drop(0x3c23f78601) == 0x3c23f786 && Drop(0x3c23f786) == 0x3c23f7
    ensures Drop(0x3c23f7) == 0x3c23 && Drop(0x3c23) == 0x3c
    ensures ByteOf(0x3c23f7860146d2c5) == 0xc5 && ByteOf(0x3c23f7860146d2) == 0xd2 && ByteOf(0x3c23f7860146) == 0x46
    ensures ByteOf(0x3c23f78601) == 0x01 && ByteOf(0x3c23f786) == 0x86 && ByteOf(0x3c23f7) == 0xf7 && ByteOf(0x3c23) == 0x23 && ByteOf(0x3c) == 0x3c
  {
  }

  lemma Bytes1()
    ensures Drop(0xc003c7dcb27d7e92) == 0xc003c7dcb27d7e && Drop(0xc003c7dcb27d7e) == 0xc003c7dcb27d
    ensures Drop(0xc003c7dcb27d) == 0xc003c7dcb2 && Drop(0xc003c7dcb2) == 0xc003c7dc && Drop(0xc003c7dc) == 0xc003c7
    ensures Drop(0xc003c7) == 0xc003 && Drop(0xc003) == 0xc0
    ensures ByteOf(0xc003c7dcb27d7e92) == 0x92 && ByteOf(0xc003c7dcb27d7e) == 0x7e && ByteOf(0xc003c7dcb27d) == 0x7d
    ensures ByteOf(0xc003c7dcb2) == 0xb2 && ByteOf(0xc003c7dc) == 0xdc && ByteOf(0xc003c7) == 0xc7 && ByteOf(0xc003) == 0x03 && ByteOf(0xc0) == 0xc0
  {
  }

  lemma Bytes2()
    ensures Drop(0x3b2782ca53b600e5) == 0x3b2782ca53b600 && Drop(0x3b2782ca53b600) == 0x3b2782ca53b6
    ensures Drop(0x3b2782ca53b6) == 0x3b2782ca53 && Drop(0x3b2782ca53) == 0x3b2782ca && Drop(0x3b2782ca) == 0x3b2782
    ensures Drop(0x3b2782) == 0x3b27 && Drop(0x3b27) == 0x3b
    ensures ByteOf(0x3b2782ca53b600e5) == 0xe5 && ByteOf(0x3b2782ca53b600) == 0x00 && ByteOf(0x3b2782ca53b6) == 0xb6
    ensures ByteOf(0x3b2782ca53) == 0x53 && ByteOf(0x3b2782ca) == 0xca && ByteOf(0x3b2782) == 0x82 && ByteOf(0x3b27) == 0x27 && ByteOf(0x3b) == 0x3b
  {
  }

  lemma Bytes3()
    ensures Drop(0x70a4855d04d8fa7b) == 0x70a4855d04d8fa && Drop(0x70a4855d04d8fa) == 0x70a4855d04d8
    ensures Drop(0x70a4855d04d8) == 0x70a4855d04 && Drop(0x70a4855d04) == 0x70a4855d && Drop(0x70a4855d) == 0x70a485
    ensures Drop(0x70a485) == 0x70a4 && Drop(0x70a4) == 0x70
    ensures ByteOf(0x70a4855d04d8fa7b) == 0x7b && ByteOf(0x70a4855d04d8fa) == 0xfa && ByteOf(0x70a4855d04d8) == 0xd8
    ensures ByteOf(0x70a4855d04) == 0x04 && ByteOf(0x70a4855d) == 0x5d && ByteOf(0x70a485) == 0x85 && ByteOf(0x70a4) == 0xa4 && ByteOf(0x70) == 0x70
  {
  }

  function DropMany(w: Word, n: nat): Word {
    if n == 0 then w else DropMany(Drop(w), n - 1)
  }

  lemma {:induction false} BitOfDropped(w: Word, n: nat, j: nat)
    ensures WordBit(DropMany(w, n), j) == WordBit(w, 8 * n + j)
    decreases n
  {
    hide WordBit, Drop;
    if n > 0 {
      BitOfDropped(Drop(w), n - 1, j);
      DropBit(w, 8 * (n - 1) + j);
    }
  }

  /** A lane of the first plane gives eight bytes of output. */
  lemma LaneBytes(s: State, x: nat, w: Word, bytes: seq<Byte>)
    requires x < 5 && LaneIs(s, x, 0, w) && |bytes| == 8
    requires forall n: nat :: n < 8 ==> bytes[n] == ByteOf(DropMany(w, n))
    ensures s[64 * x..64 * x + 64] == BitsOf(bytes)
  {
    hide WordBit, Drop, DropMany, ByteOf, Bit;
    forall k: nat | k < 64
      ensures s[64 * x + k] == BitsOf(bytes)[k]
    {
      assert At(s, x, 0, k) == s[64 * x + k];
      assert bytes[k / 8] == ByteOf(DropMany(w, k / 8));
      BitOfByte(DropMany(w, k / 8), k % 8);
      BitOfDropped(w, k / 8, k % 8);
    }
  }

  lemma DropTwo(w: Word, w1: Word, w2: Word, n: nat)
    requires Drop(w) == w1 && Drop(w1) == w2
    ensures DropMany(w, n + 2) == DropMany(w2, n)
  {
    hide Drop;
    assert DropMany(w, n + 2) == DropMany(w1, n + 1);
  }

  lemma EightDrops(w: Word, w1: Word, w2: Word, w3: Word, w4: Word, w5: Word, w6: Word, w7: Word)
    requires Drop(w) == w1 && Drop(w1) == w2 && Drop(w2) == w3 && Drop(w3) == w4
    requires Drop(w4) == w5 && Drop(w5) == w6 && Drop(w6) == w7
    ensures DropMany(w, 0) == w && DropMany(w, 1) == w1 && DropMany(w, 2) == w2 && DropMany(w, 3) == w3
    ensures DropMany(w, 4) == w4 && DropMany(w, 5) == w5 && DropMany(w, 6) == w6 && DropMany(w, 7) == w7
  {
    FirstDrops(w, w1);
    FirstDrops(w2, w3);
    FirstDrops(w4, w5);
    FirstDrops(w6, w7);
    hide Drop, DropMany;
    DropTwo(w, w1, w2, 0);
    DropTwo(w, w1, w2, 1);
    DropTwo(w, w1, w2, 2);
    DropTwo(w, w1, w2, 3);
    DropTwo(w, w1, w2, 4);
    DropTwo(w, w1, w2, 5);
    DropTwo(w2, w3, w4, 0);
    DropTwo(w2, w3, w4, 1);
    DropTwo(w2, w3, w4, 2);
    DropTwo(w2, w3, w4, 3);
    DropTwo(w4, w5, w6, 0);
    DropTwo(w4, w5, w6, 1);
  }

  lemma FirstDrops(w: Word, w1: Word)
    requires Drop(w) == w1
    ensures DropMany(w, 0) == w && DropMany(w, 1) == w1
  {
    hide Drop;
    assert DropMany(w1, 0) == w1;
  }

  lemma Output0(s: State)
    requires Holds(s, S24)
    ensures s[0..64] == BitsOf(DIGEST0)
  {
    Bytes0();
    hide LaneIs, Drop, DropMany, ByteOf;
    EightDrops(0x3c23f7860146d2c5, 0x3c23f7860146d2, 0x3c23f7860146, 0x3c23f78601, 0x3c23f786, 0x3c23f7, 0x3c23, 0x3c);
    LaneBytes(s, 0, 0x3c23f7860146d2c5, DIGEST0);
  }

  lemma Output1(s: State)
    requires Holds(s, S24)
    ensures s[64..128] == BitsOf(DIGEST1)
  {
    Bytes1();
    hide LaneIs, Drop, DropMany, ByteOf;
    EightDrops(0xc003c7dcb27d7e92, 0xc003c7dcb27d7e, 0xc003c7dcb27d, 0xc003c7dcb2, 0xc003c7dc, 0xc003c7, 0xc003, 0xc0);
    LaneBytes(s, 1, 0xc003c7dcb27d7e92, DIGEST1);
  }

  lemma Output2(s: State)
    requires Holds(s, S24)
    ensures s[128..192] == BitsOf(DIGEST2)
  {
    Bytes2();
    hide LaneIs, Drop, DropMany, ByteOf;
    EightDrops(0x3b2782ca53b600e5, 0x3b2782ca53b600, 0x3b2782ca53b6, 0x3b2782ca53, 0x3b2782ca, 0x3b2782, 0x3b27, 0x3b);
    LaneBytes(s, 2, 0x3b2782ca53b600e5, DIGEST2);
  }

  lemma Output3(s: State)
    requires Holds(s, S24)
    ensures s[192..256] == BitsOf(DIGEST3)
  {
    Bytes3();
    hide LaneIs, Drop, DropMany, ByteOf;
    EightDrops(0x70a4855d04d8fa7b, 0x70a4855d04d8fa, 0x70a4855d04d8, 0x70a4855d04, 0x70a4855d, 0x70a485, 0x70a4, 0x70);
    LaneBytes(s, 3, 0x70a4855d04d8fa7b, DIGEST3);
  }

  lemma FourParts()
    ensures BitsOf(EMPTY_DIGEST) == BitsOf(DIGEST0) + BitsOf(DIGEST1) + BitsOf(DIGEST2) + BitsOf(DIGEST3)
  {
    hide BitsOf;
    BitsOfAppend(DIGEST0, DIGEST1);
    BitsOfAppend(DIGEST0 + DIGEST1, DIGEST2);
    BitsOfAppend(DIGEST0 + DIGEST1 + DIGEST2, DIGEST3);
  }

  lemma OneBlock()
    ensures |Pad(0)| == RATE && Keccak512([], 256) == KeccakF(XorBlock(Zero(), Pad(0)))[..256]
  {
    hide KeccakF, XorBlock;
    var none: seq<bool> := [];
    FirstBlock(0);
    assert none + Pad(0) == Pad(0) && Pad(0)[..RATE] == Pad(0) && Pad(0)[RATE..] == none;
    assert Absorb(Zero(), Pad(0)) == Absorb(KeccakF(XorBlock(Zero(), Pad(0))), none);
  }

  /** The digest of the empty message. */
  lemma EmptyDigest()
    ensures Keccak512(BitsOf([]), 256) == BitsOf(EMPTY_DIGEST)
  {
    hide KeccakF, XorBlock, Pad, Holds, Keccak512, BitsOf;
    OneBlock();
    NoBits();
    var s := XorBlock(Zero(), Pad(0));
    FirstState(s);
    AllRounds(s);
    var t := KeccakF(s);
    Output0(t);
    Output1(t);
    Output2(t);
    Output3(t);
    FourParts();
    FirstBits(t);
  }

  lemma NoBits()
    ensures BitsOf([]) == []
  {
  }

  lemma FirstBits(t: State)
    ensures t[..256] == t[0..64] + t[64..128] + t[128..192] + t[192..256]
  {
  }

  /** Bytes are determined by their bits. */
  lemma BytesFromBits(a: seq<Byte>, b: seq<Byte>)
    requires BitsOf(a) == BitsOf(b)
    ensures a == b
  {
    assert |BitsOf(a)| == 8 * |a| && |BitsOf(b)| == 8 * |b|;
    hide Bit;
    forall i | 0 <= i < |a|
      ensures a[i] == b[i]
    {
      forall z: nat | z < 8
        ensures Bit(a[i], z) == Bit(b[i], z)
      {
        assert BitsOf(a)[8 * i + z] == BitsOf(b)[8 * i + z];
      }
      SameByte(a[i], b[i]);
    }
  }

  lemma SameByte(a: Byte, b: Byte)
    requires forall z: nat :: z < 8 ==> Bit(a, z) == Bit(b, z)
    ensures a == b
  {
    hide Bit;
    SameBits(a, b, 8);
  }

  /** So the code's digest of no bytes is this one. */
  method DigestOfNothing() returns (digest: seq<Byte>)
    ensures digest == EMPTY_DIGEST
  {
    digest := Keccak256([]);
    EmptyDigest();
    BytesFromBits(digest, EMPTY_DIGEST);
  }
}
