/** The four distribution lookup tables of src/types.ts, each a partial map
    from a lower-case distribution name to a value. */
module DistroData {
  import opened Options

  /** `DISTRO_PACKAGE_MANAGER_MAP` as a partial map from key to value. The
      mixed-case key "antiX" is kept as written; no normalised name reaches it. */
  function PackageManagerTable(key: string): Option<string> {
    match key
    case "debian" => Some("apt")
    case "ubuntu" => Some("apt")
    case "linux mint" => Some("apt")
    case "mint" => Some("apt")
    case "lmde" => Some("apt")
    case "pop!_os" => Some("apt")
    case "pop os" => Some("apt")
    case "popos" => Some("apt")
    case "pop" => Some("apt")
    case "elementary" => Some("apt")
    case "elementary os" => Some("apt")
    case "zorin" => Some("apt")
    case "zorin os" => Some("apt")
    case "kali" => Some("apt")
    case "kali linux" => Some("apt")
    case "parrot" => Some("apt")
    case "parrot os" => Some("apt")
    case "mx" => Some("apt")
    case "mx linux" => Some("apt")
    case "antiX" => Some("apt")
    case "antix" => Some("apt")
    case "deepin" => Some("apt")
    case "devuan" => Some("apt")
    case "bunsenlabs" => Some("apt")
    case "crunchbang" => Some("apt")
    case "crunchbangplusplus" => Some("apt")
    case "sparky" => Some("apt")
    case "sparkylinux" => Some("apt")
    case "peppermint" => Some("apt")
    case "bodhi" => Some("apt")
    case "bodhi linux" => Some("apt")
    case "q4os" => Some("apt")
    case "knoppix" => Some("apt")
    case "tails" => Some("apt")
    case "pureos" => Some("apt")
    case "pure os" => Some("apt")
    case "raspberry pi os" => Some("apt")
    case "raspbian" => Some("apt")
    case "armbian" => Some("apt")
    case "dietpi" => Some("apt")
    case "proxmox" => Some("apt")
    case "openmediavault" => Some("apt")
    case "turnkey" => Some("apt")
    case "ubuntu server" => Some("apt")
    case "kubuntu" => Some("apt")
    case "xubuntu" => Some("apt")
    case "lubuntu" => Some("apt")
    case "ubuntu mate" => Some("apt")
    case "ubuntu budgie" => Some("apt")
    case "ubuntu studio" => Some("apt")
    case "ubuntu unity" => Some("apt")
    case "ubuntu cinnamon" => Some("apt")
    case "ubuntu kylin" => Some("apt")
    case "edubuntu" => Some("apt")
    case "mythbuntu" => Some("apt")
    case "neon" => Some("apt")
    case "kde neon" => Some("apt")
    case "linuxfx" => Some("apt")
    case "windowsfx" => Some("apt")
    case "voyager" => Some("apt")
    case "regolith" => Some("apt")
    case "drauger" => Some("apt")
    case "drauger os" => Some("apt")
    case "feren" => Some("apt")
    case "feren os" => Some("apt")
    case "nitrux" => Some("apt")
    case "cutefishos" => Some("apt")
    case "cutefish os" => Some("apt")
    case "spiral" => Some("apt")
    case "spiral linux" => Some("apt")
    case "fedora" => Some("dnf")
    case "fedora server" => Some("dnf")
    case "fedora workstation" => Some("dnf")
    case "fedora kde" => Some("dnf")
    case "fedora xfce" => Some("dnf")
    case "fedora lxqt" => Some("dnf")
    case "fedora cinnamon" => Some("dnf")
    case "fedora mate" => Some("dnf")
    case "fedora i3" => Some("dnf")
    case "fedora sway" => Some("dnf")
    case "fedora sericea" => Some("dnf")
    case "fedora kinoite" => Some("dnf")
    case "fedora silverblue" => Some("rpm-ostree")
    case "silverblue" => Some("rpm-ostree")
    case "kinoite" => Some("rpm-ostree")
    case "fedora coreos" => Some("rpm-ostree")
    case "fedora iot" => Some("rpm-ostree")
    case "rhel" => Some("dnf")
    case "red hat" => Some("dnf")
    case "red hat enterprise linux" => Some("dnf")
    case "centos" => Some("dnf")
    case "centos stream" => Some("dnf")
    case "rocky" => Some("dnf")
    case "rocky linux" => Some("dnf")
    case "alma" => Some("dnf")
    case "almalinux" => Some("dnf")
    case "oracle" => Some("dnf")
    case "oracle linux" => Some("dnf")
    case "scientific" => Some("dnf")
    case "scientific linux" => Some("dnf")
    case "springdale" => Some("dnf")
    case "eurolinux" => Some("dnf")
    case "navy linux" => Some("dnf")
    case "amazon linux" => Some("dnf")
    case "amazon" => Some("dnf")
    case "nobara" => Some("dnf")
    case "ultramarine" => Some("dnf")
    case "ultramarine linux" => Some("dnf")
    case "risi" => Some("dnf")
    case "risios" => Some("dnf")
    case "qubes" => Some("dnf")
    case "qubes os" => Some("dnf")
    case "mageia" => Some("urpmi")
    case "openmandriva" => Some("dnf")
    case "pclinuxos" => Some("apt")
    case "rosa" => Some("urpmi")
    case "clearos" => Some("dnf")
    case "arch" => Some("pacman")
    case "arch linux" => Some("pacman")
    case "archlinux" => Some("pacman")
    case "manjaro" => Some("pacman")
    case "endeavouros" => Some("pacman")
    case "endeavour" => Some("pacman")
    case "garuda" => Some("pacman")
    case "garuda linux" => Some("pacman")
    case "arcolinux" => Some("pacman")
    case "arco" => Some("pacman")
    case "artix" => Some("pacman")
    case "artix linux" => Some("pacman")
    case "parabola" => Some("pacman")
    case "hyperbola" => Some("pacman")
    case "archcraft" => Some("pacman")
    case "rebornos" => Some("pacman")
    case "reborn os" => Some("pacman")
    case "archbang" => Some("pacman")
    case "bluestar" => Some("pacman")
    case "bluestar linux" => Some("pacman")
    case "chakra" => Some("pacman")
    case "ctlos" => Some("pacman")
    case "kaos" => Some("pacman")
    case "xerolinux" => Some("pacman")
    case "xero" => Some("pacman")
    case "mabox" => Some("pacman")
    case "archman" => Some("pacman")
    case "peux os" => Some("pacman")
    case "snal" => Some("pacman")
    case "crystal linux" => Some("pacman")
    case "instantos" => Some("pacman")
    case "steamos" => Some("pacman")
    case "steam os" => Some("pacman")
    case "steamdeck" => Some("pacman")
    case "steam deck" => Some("pacman")
    case "cachyos" => Some("pacman")
    case "cachy" => Some("pacman")
    case "athena os" => Some("pacman")
    case "athena" => Some("pacman")
    case "opensuse" => Some("zypper")
    case "suse" => Some("zypper")
    case "opensuse tumbleweed" => Some("zypper")
    case "tumbleweed" => Some("zypper")
    case "opensuse leap" => Some("zypper")
    case "leap" => Some("zypper")
    case "opensuse microos" => Some("transactional-update")
    case "microos" => Some("transactional-update")
    case "sles" => Some("zypper")
    case "suse linux enterprise" => Some("zypper")
    case "geckolinux" => Some("zypper")
    case "gecko linux" => Some("zypper")
    case "kamarada" => Some("zypper")
    case "regata os" => Some("zypper")
    case "gentoo" => Some("emerge")
    case "funtoo" => Some("emerge")
    case "calculate" => Some("emerge")
    case "calculate linux" => Some("emerge")
    case "sabayon" => Some("equo")
    case "mocaccino" => Some("emerge")
    case "mocaccinoos" => Some("emerge")
    case "redcore" => Some("emerge")
    case "pentoo" => Some("emerge")
    case "slackware" => Some("slackpkg")
    case "salix" => Some("slapt-get")
    case "slackel" => Some("slapt-get")
    case "zenwalk" => Some("slapt-get")
    case "porteus" => Some("slackpkg")
    case "absolute" => Some("slapt-get")
    case "slax" => Some("slackpkg")
    case "void" => Some("xbps")
    case "void linux" => Some("xbps")
    case "alpine" => Some("apk")
    case "alpine linux" => Some("apk")
    case "postmarket" => Some("apk")
    case "postmarketos" => Some("apk")
    case "nixos" => Some("nix")
    case "nix" => Some("nix")
    case "guix" => Some("guix")
    case "gnu guix" => Some("guix")
    case "solus" => Some("eopkg")
    case "clear" => Some("swupd")
    case "clear linux" => Some("swupd")
    case "clearlinux" => Some("swupd")
    case "puppy" => Some("petget")
    case "puppy linux" => Some("petget")
    case "tinycore" => Some("tce-load")
    case "tiny core" => Some("tce-load")
    case "slitaz" => Some("tazpkg")
    case "4mlinux" => Some("unknown")
    case "kwort" => Some("kpkg")
    case "nutyx" => Some("cards")
    case "crux" => Some("prt-get")
    case "kiss" => Some("kiss")
    case "kiss linux" => Some("kiss")
    case "oasis" => Some("unknown")
    case "chimera" => Some("apk")
    case "chimera linux" => Some("apk")
    case "adelie" => Some("apk")
    case "adelie linux" => Some("apk")
    case "vanilla" => Some("abroot")
    case "vanilla os" => Some("abroot")
    case "blendos" => Some("blend")
    case "carbonos" => Some("unknown")
    case "endless" => Some("flatpak")
    case "endless os" => Some("flatpak")
    case "chromeos" => Some("unknown")
    case "chrome os" => Some("unknown")
    case "chromeos flex" => Some("unknown")
    case "android" => Some("unknown")
    case "termux" => Some("apt")
    case "wsl" => Some("apt")
    case "wsl2" => Some("apt")
    case _ => None
  }

  /** `DISTRO_BASE_MAP`. */
  function BaseTable(key: string): Option<string> {
    match key
    case "debian" => Some("debian")
    case "ubuntu" => Some("ubuntu")
    case "linux mint" => Some("ubuntu")
    case "mint" => Some("ubuntu")
    case "lmde" => Some("debian")
    case "pop!_os" => Some("ubuntu")
    case "pop os" => Some("ubuntu")
    case "popos" => Some("ubuntu")
    case "pop" => Some("ubuntu")
    case "elementary" => Some("ubuntu")
    case "elementary os" => Some("ubuntu")
    case "zorin" => Some("ubuntu")
    case "zorin os" => Some("ubuntu")
    case "kali" => Some("debian")
    case "kali linux" => Some("debian")
    case "parrot" => Some("debian")
    case "parrot os" => Some("debian")
    case "mx" => Some("debian")
    case "mx linux" => Some("debian")
    case "antix" => Some("debian")
    case "deepin" => Some("debian")
    case "devuan" => Some("debian")
    case "sparky" => Some("debian")
    case "sparkylinux" => Some("debian")
    case "peppermint" => Some("debian")
    case "bodhi" => Some("ubuntu")
    case "q4os" => Some("debian")
    case "knoppix" => Some("debian")
    case "tails" => Some("debian")
    case "pureos" => Some("debian")
    case "raspberry pi os" => Some("debian")
    case "raspbian" => Some("debian")
    case "armbian" => Some("debian")
    case "dietpi" => Some("debian")
    case "proxmox" => Some("debian")
    case "kubuntu" => Some("ubuntu")
    case "xubuntu" => Some("ubuntu")
    case "lubuntu" => Some("ubuntu")
    case "ubuntu mate" => Some("ubuntu")
    case "ubuntu budgie" => Some("ubuntu")
    case "ubuntu studio" => Some("ubuntu")
    case "ubuntu unity" => Some("ubuntu")
    case "neon" => Some("ubuntu")
    case "kde neon" => Some("ubuntu")
    case "regolith" => Some("ubuntu")
    case "feren" => Some("ubuntu")
    case "feren os" => Some("ubuntu")
    case "nitrux" => Some("ubuntu")
    case "spiral" => Some("debian")
    case "spiral linux" => Some("debian")
    case "fedora" => Some("fedora")
    case "fedora workstation" => Some("fedora")
    case "fedora server" => Some("fedora")
    case "fedora silverblue" => Some("immutable")
    case "silverblue" => Some("immutable")
    case "fedora kinoite" => Some("immutable")
    case "kinoite" => Some("immutable")
    case "rhel" => Some("rhel")
    case "red hat" => Some("rhel")
    case "red hat enterprise linux" => Some("rhel")
    case "centos" => Some("rhel")
    case "centos stream" => Some("rhel")
    case "rocky" => Some("rhel")
    case "rocky linux" => Some("rhel")
    case "alma" => Some("rhel")
    case "almalinux" => Some("rhel")
    case "oracle" => Some("rhel")
    case "oracle linux" => Some("rhel")
    case "scientific" => Some("rhel")
    case "amazon linux" => Some("rhel")
    case "nobara" => Some("fedora")
    case "ultramarine" => Some("fedora")
    case "qubes" => Some("fedora")
    case "qubes os" => Some("fedora")
    case "mageia" => Some("mageia")
    case "openmandriva" => Some("fedora")
    case "arch" => Some("arch")
    case "arch linux" => Some("arch")
    case "archlinux" => Some("arch")
    case "manjaro" => Some("arch")
    case "endeavouros" => Some("arch")
    case "endeavour" => Some("arch")
    case "garuda" => Some("arch")
    case "garuda linux" => Some("arch")
    case "arcolinux" => Some("arch")
    case "arco" => Some("arch")
    case "artix" => Some("arch")
    case "artix linux" => Some("arch")
    case "parabola" => Some("arch")
    case "hyperbola" => Some("arch")
    case "archcraft" => Some("arch")
    case "rebornos" => Some("arch")
    case "cachyos" => Some("arch")
    case "xerolinux" => Some("arch")
    case "steamos" => Some("steamdeck")
    case "steam os" => Some("steamdeck")
    case "steamdeck" => Some("steamdeck")
    case "steam deck" => Some("steamdeck")
    case "opensuse" => Some("suse")
    case "suse" => Some("suse")
    case "opensuse tumbleweed" => Some("suse")
    case "tumbleweed" => Some("suse")
    case "opensuse leap" => Some("suse")
    case "leap" => Some("suse")
    case "opensuse microos" => Some("immutable")
    case "microos" => Some("immutable")
    case "sles" => Some("suse")
    case "geckolinux" => Some("suse")
    case "gentoo" => Some("gentoo")
    case "funtoo" => Some("gentoo")
    case "calculate" => Some("gentoo")
    case "calculate linux" => Some("gentoo")
    case "sabayon" => Some("gentoo")
    case "mocaccino" => Some("gentoo")
    case "redcore" => Some("gentoo")
    case "pentoo" => Some("gentoo")
    case "slackware" => Some("slackware")
    case "salix" => Some("slackware")
    case "slackel" => Some("slackware")
    case "zenwalk" => Some("slackware")
    case "porteus" => Some("slackware")
    case "slax" => Some("slackware")
    case "void" => Some("void")
    case "void linux" => Some("void")
    case "alpine" => Some("alpine")
    case "alpine linux" => Some("alpine")
    case "postmarketos" => Some("alpine")
    case "nixos" => Some("nixos")
    case "nix" => Some("nixos")
    case "guix" => Some("guix")
    case "gnu guix" => Some("guix")
    case "solus" => Some("solus")
    case "clear" => Some("clear")
    case "clear linux" => Some("clear")
    case "puppy" => Some("puppy")
    case "puppy linux" => Some("puppy")
    case "tinycore" => Some("tinycore")
    case "chimera" => Some("alpine")
    case "chimera linux" => Some("alpine")
    case "vanilla" => Some("immutable")
    case "vanilla os" => Some("immutable")
    case "blendos" => Some("immutable")
    case "endless" => Some("immutable")
    case "endless os" => Some("immutable")
    case "chromeos" => Some("chromeos")
    case "chrome os" => Some("chromeos")
    case "android" => Some("android")
    case "termux" => Some("android")
    case _ => None
  }

  /** `DISTRO_INIT_MAP`. */
  function InitTable(key: string): Option<string> {
    match key
    case "ubuntu" => Some("systemd")
    case "debian" => Some("systemd")
    case "fedora" => Some("systemd")
    case "arch" => Some("systemd")
    case "manjaro" => Some("systemd")
    case "opensuse" => Some("systemd")
    case "rhel" => Some("systemd")
    case "centos" => Some("systemd")
    case "mint" => Some("systemd")
    case "pop os" => Some("systemd")
    case "elementary" => Some("systemd")
    case "zorin" => Some("systemd")
    case "kali" => Some("systemd")
    case "mx linux" => Some("systemd")
    case "endeavouros" => Some("systemd")
    case "garuda" => Some("systemd")
    case "solus" => Some("systemd")
    case "gentoo" => Some("openrc")
    case "alpine" => Some("openrc")
    case "artix" => Some("openrc")
    case "calculate" => Some("openrc")
    case "postmarketos" => Some("openrc")
    case "void" => Some("runit")
    case "void linux" => Some("runit")
    case "devuan" => Some("sysvinit")
    case "antix" => Some("sysvinit")
    case "slackware" => Some("sysvinit")
    case "guix" => Some("shepherd")
    case "gnu guix" => Some("shepherd")
    case "nixos" => Some("systemd")
    case "chromeos" => Some("upstart")
    case _ => None
  }

  /** `DISTRO_DEFAULT_DESKTOP_MAP`. */
  function DesktopTable(key: string): Option<string> {
    match key
    case "ubuntu" => Some("gnome")
    case "fedora" => Some("gnome")
    case "fedora workstation" => Some("gnome")
    case "pop os" => Some("gnome")
    case "pop!_os" => Some("gnome")
    case "debian" => Some("gnome")
    case "rhel" => Some("gnome")
    case "centos" => Some("gnome")
    case "rocky" => Some("gnome")
    case "alma" => Some("gnome")
    case "elementary" => Some("pantheon")
    case "elementary os" => Some("pantheon")
    case "linux mint" => Some("cinnamon")
    case "mint" => Some("cinnamon")
    case "zorin" => Some("gnome")
    case "kubuntu" => Some("kde")
    case "kde neon" => Some("kde")
    case "fedora kde" => Some("kde")
    case "opensuse" => Some("kde")
    case "manjaro" => Some("xfce")
    case "xubuntu" => Some("xfce")
    case "mx linux" => Some("xfce")
    case "lubuntu" => Some("lxqt")
    case "lxle" => Some("lxde")
    case "solus" => Some("budgie")
    case "ubuntu budgie" => Some("budgie")
    case "ubuntu mate" => Some("mate")
    case "deepin" => Some("deepin")
    case "ubuntu cinnamon" => Some("cinnamon")
    case "garuda" => Some("kde")
    case "endeavouros" => Some("xfce")
    case "archcraft" => Some("openbox")
    case "arcolinux" => Some("xfce")
    case "regolith" => Some("i3")
    case "mabox" => Some("openbox")
    case _ => None
  }
}
